/**
 * Which mock handler answers a request the client makes. The handlers are
 * tried in declaration order against the request's method and path; a
 * pattern segment `:name` matches any one non-empty path segment. A request
 * no handler matches is passed through to the network. Paths are given as
 * their segments; the client prefixes every path with `/api`.
 */
module MockRoutes {
  import opened JsCore

  datatype HttpMethod = Get | Post | Put | Delete

  datatype Segment = Lit(text: string) | Param

  datatype Handler =
    | SessionByTokenH | SendMessageH
    | ListEmployeesH | GetEmployeeH | CreateEmployeeH | UpdateEmployeeH | DeleteEmployeeH
    | EmployeeSessionsH | CreateInviteH | RevokeInviteH | AdminSessionH
    | ListQuestionsH | CreateQuestionH | UpdateQuestionH | DeleteQuestionH
    | ListPromptsH | CreatePromptH | ActivatePromptH
    | BudgetH | GetSettingsH | PutSettingsH | ResetSettingH

  datatype Route = Route(verb: HttpMethod, pattern: seq<Segment>, handler: Handler)

  /** The mock's handler list, in order. */
  const Routes: seq<Route> := [
    Route(Get, [Lit("api"), Lit("i"), Param], SessionByTokenH),
    Route(Post, [Lit("api"), Lit("sessions"), Param, Lit("message")], SendMessageH),
    Route(Get, [Lit("api"), Lit("admin"), Lit("employees")], ListEmployeesH),
    Route(Get, [Lit("api"), Lit("admin"), Lit("employees"), Param], GetEmployeeH),
    Route(Post, [Lit("api"), Lit("admin"), Lit("employees")], CreateEmployeeH),
    Route(Put, [Lit("api"), Lit("admin"), Lit("employees"), Param], UpdateEmployeeH),
    Route(Delete, [Lit("api"), Lit("admin"), Lit("employees"), Param], DeleteEmployeeH),
    Route(Get, [Lit("api"), Lit("admin"), Lit("employees"), Param, Lit("sessions")], EmployeeSessionsH),
    Route(Post, [Lit("api"), Lit("admin"), Lit("employees"), Param, Lit("invite")], CreateInviteH),
    Route(Delete, [Lit("api"), Lit("admin"), Lit("employees"), Param, Lit("invite")], RevokeInviteH),
    Route(Get, [Lit("api"), Lit("admin"), Lit("sessions"), Param], AdminSessionH),
    Route(Get, [Lit("api"), Lit("admin"), Lit("questions")], ListQuestionsH),
    Route(Post, [Lit("api"), Lit("admin"), Lit("questions")], CreateQuestionH),
    Route(Put, [Lit("api"), Lit("admin"), Lit("questions"), Param], UpdateQuestionH),
    Route(Delete, [Lit("api"), Lit("admin"), Lit("questions"), Param], DeleteQuestionH),
    Route(Get, [Lit("api"), Lit("admin"), Lit("prompts")], ListPromptsH),
    Route(Post, [Lit("api"), Lit("admin"), Lit("prompts")], CreatePromptH),
    Route(Post, [Lit("api"), Lit("admin"), Lit("prompts"), Param, Lit("activate")], ActivatePromptH),
    Route(Get, [Lit("api"), Lit("admin"), Lit("budget")], BudgetH),
    Route(Get, [Lit("api"), Lit("admin"), Lit("settings")], GetSettingsH),
    Route(Put, [Lit("api"), Lit("admin"), Lit("settings")], PutSettingsH),
    Route(Delete, [Lit("api"), Lit("admin"), Lit("settings"), Param], ResetSettingH)
  ]

  predicate SegmentMatches(p: Segment, s: string) {
    match p
    case Lit(text) => s == text
    case Param => |s| > 0
  }

  /** The path has as many segments as the pattern and each matches its own. */
  predicate PatternMatches(pattern: seq<Segment>, path: seq<string>)
    decreases |pattern|
  {
    && |pattern| == |path|
    && (pattern != [] ==> SegmentMatches(pattern[0], path[0]) && PatternMatches(pattern[1..], path[1..]))
  }

  /** Route `i` of `table` accepts the request. */
  predicate Hit(table: seq<Route>, verb: HttpMethod, path: seq<string>, i: nat)
    requires i < |table|
  {
    table[i].verb == verb && PatternMatches(table[i].pattern, path)
  }

  /** Route `i` is the first from index `n` on to accept the request. */
  predicate FirstHit(table: seq<Route>, verb: HttpMethod, path: seq<string>, n: nat, i: nat) {
    n <= i < |table| && Hit(table, verb, path, i) && forall j :: n <= j < i ==> !Hit(table, verb, path, j)
  }

  /** Tries the routes of `table` from index `n` on, in order, and takes the first
      that accepts the request. */
  function ResolveIn(table: seq<Route>, verb: HttpMethod, path: seq<string>, n: nat): Option<Handler>
    requires n <= |table|
    decreases |table| - n
  {
    if n == |table| then None
    else if Hit(table, verb, path, n) then Some(table[n].handler)
    else ResolveIn(table, verb, path, n + 1)
  }

  /** The handler that answers a request, or None when it goes to the network. */
  function Resolve(verb: HttpMethod, path: seq<string>): (r: Option<Handler>)
    ensures r.None? ==> forall j :: 0 <= j < |Routes| ==> !Hit(Routes, verb, path, j)
    ensures r.Some? ==> exists i: nat :: FirstHit(Routes, verb, path, 0, i) && Routes[i].handler == r.value
  {
    ResolveSound(Routes, verb, path, 0);
    ResolveIn(Routes, verb, path, 0)
  }

  /** Each handler is registered once, so the handler that answers names the route. */
  lemma OneRoutePerHandler(i: nat, j: nat)
    requires i < j < |Routes|
    ensures Routes[i].handler != Routes[j].handler
  {
  }

  /** The first route that accepts a request is the one that answers it. */
  lemma {:induction false} ResolveAt(table: seq<Route>, verb: HttpMethod, path: seq<string>, i: nat, n: nat)
    requires n <= i < |table| && Hit(table, verb, path, i)
    requires forall j :: n <= j < i ==> !Hit(table, verb, path, j)
    ensures ResolveIn(table, verb, path, n) == Some(table[i].handler)
    decreases i - n
  {
    if n < i {
      assert !Hit(table, verb, path, n);
      ResolveAt(table, verb, path, i, n + 1);
    }
  }

  /** A request no route accepts is passed through. */
  lemma {:induction false} ResolveMiss(table: seq<Route>, verb: HttpMethod, path: seq<string>, n: nat)
    requires n <= |table|
    requires forall j :: n <= j < |table| ==> !Hit(table, verb, path, j)
    ensures ResolveIn(table, verb, path, n).None?
    decreases |table| - n
  {
    if n < |table| {
      assert !Hit(table, verb, path, n);
      ResolveMiss(table, verb, path, n + 1);
    }
  }

  /** Conversely, a handler found is that of a route accepting the request with no
      earlier route accepting it, and None means no route accepts it. */
  lemma {:induction false} ResolveSound(table: seq<Route>, verb: HttpMethod, path: seq<string>, n: nat)
    requires n <= |table|
    ensures ResolveIn(table, verb, path, n).None? ==> forall j :: n <= j < |table| ==> !Hit(table, verb, path, j)
    ensures ResolveIn(table, verb, path, n).Some? ==>
      exists i: nat :: FirstHit(table, verb, path, n, i) && table[i].handler == ResolveIn(table, verb, path, n).value
    decreases |table| - n
  {
    if n < |table| {
      ResolveSound(table, verb, path, n + 1);
      if Hit(table, verb, path, n) {
        assert ResolveIn(table, verb, path, n).value == table[n].handler;
      }
    }
  }

  /** The requests the client's hooks make; each argument is one path segment. */
  datatype Call =
    | SessionByToken(token: string) | SessionById(sessionId: string) | SendMessage(sessionId: string)
    | ListEmployees | GetEmployee(id: string) | CreateEmployee | UpdateEmployee(id: string)
    | DeleteEmployee(id: string) | EmployeeSessions(id: string)
    | CreateInvite(id: string) | RevokeInvite(id: string)
    | AdminSession(sessionId: string) | Reextract(sessionId: string) | Resummarize(sessionId: string)
    | ListQuestions | CreateQuestion | UpdateQuestion(id: string) | DeleteQuestion(id: string)
    | ReorderQuestions
    | ListPrompts | CreatePrompt | ActivatePrompt(id: string)
    | Budget | GetSettings | PutSettings | ResetSetting(key: string)

  /** The segment the call puts in its path, or "x" for calls without one. */
  function Arg(c: Call): string {
    match c
    case SessionByToken(t) => t
    case SessionById(s) => s
    case SendMessage(s) => s
    case GetEmployee(i) => i
    case UpdateEmployee(i) => i
    case DeleteEmployee(i) => i
    case EmployeeSessions(i) => i
    case CreateInvite(i) => i
    case RevokeInvite(i) => i
    case AdminSession(s) => s
    case Reextract(s) => s
    case Resummarize(s) => s
    case UpdateQuestion(i) => i
    case DeleteQuestion(i) => i
    case ActivatePrompt(i) => i
    case ResetSetting(k) => k
    case _ => "x"
  }

  /** The method and path (after the `/api` prefix) each hook requests, as written. */
  function Request(c: Call): (r: (HttpMethod, seq<string>))
    ensures |r.1| >= 2
    ensures r.1[0] != "admin" <==> c.SessionByToken? || c.SessionById? || c.SendMessage?
    ensures r.0 == Get <==> c.SessionByToken? || c.SessionById? || c.ListEmployees? || c.GetEmployee?
                            || c.EmployeeSessions? || c.AdminSession? || c.ListQuestions? || c.ListPrompts?
                            || c.Budget? || c.GetSettings?
  {
    match c
    case SessionByToken(t) => (Get, ["i", t])
    case SessionById(s) => (Get, ["sessions", s])
    case SendMessage(s) => (Post, ["sessions", s, "message"])
    case ListEmployees => (Get, ["admin", "employees"])
    case GetEmployee(i) => (Get, ["admin", "employees", i])
    case CreateEmployee => (Post, ["admin", "employees"])
    case UpdateEmployee(i) => (Put, ["admin", "employees", i])
    case DeleteEmployee(i) => (Delete, ["admin", "employees", i])
    case EmployeeSessions(i) => (Get, ["admin", "employees", i, "sessions"])
    case CreateInvite(i) => (Post, ["admin", "employees", i, "invites"])
    case RevokeInvite(i) => (Delete, ["admin", "employees", i, "invite"])
    case AdminSession(s) => (Get, ["admin", "sessions", s])
    case Reextract(s) => (Post, ["admin", "sessions", s, "reextract"])
    case Resummarize(s) => (Post, ["admin", "sessions", s, "resummarize"])
    case ListQuestions => (Get, ["admin", "questions"])
    case CreateQuestion => (Post, ["admin", "questions"])
    case UpdateQuestion(i) => (Put, ["admin", "questions", i])
    case DeleteQuestion(i) => (Delete, ["admin", "questions", i])
    case ReorderQuestions => (Post, ["admin", "questions", "reorder"])
    case ListPrompts => (Get, ["admin", "prompts"])
    case CreatePrompt => (Post, ["admin", "prompts"])
    case ActivatePrompt(i) => (Post, ["admin", "prompts", i, "activate"])
    case Budget => (Get, ["admin", "budget"])
    case GetSettings => (Get, ["admin", "settings"])
    case PutSettings => (Put, ["admin", "settings"])
    case ResetSetting(k) => (Delete, ["admin", "settings", k])
  }

  /** The same requests with the invite creation sent to `/invite`, the path the
      mock serves and the revocation already uses. */
  function RequestCorrected(c: Call): (r: (HttpMethod, seq<string>))
    ensures !c.CreateInvite? ==> r == Request(c)
    ensures c.CreateInvite? ==> r.0 == Request(c).0 && r.1 == Request(RevokeInvite(c.id)).1
  {
    match c
    case CreateInvite(i) => (Post, ["admin", "employees", i, "invite"])
    case _ => Request(c)
  }

  /** The handler meant for each call; the session-by-id, re-extract,
      re-summarize and reorder endpoints have no mock handler. */
  function Intended(c: Call): Option<Handler> {
    match c
    case SessionByToken(_) => Some(SessionByTokenH)
    case SessionById(_) => None
    case SendMessage(_) => Some(SendMessageH)
    case ListEmployees => Some(ListEmployeesH)
    case GetEmployee(_) => Some(GetEmployeeH)
    case CreateEmployee => Some(CreateEmployeeH)
    case UpdateEmployee(_) => Some(UpdateEmployeeH)
    case DeleteEmployee(_) => Some(DeleteEmployeeH)
    case EmployeeSessions(_) => Some(EmployeeSessionsH)
    case CreateInvite(_) => Some(CreateInviteH)
    case RevokeInvite(_) => Some(RevokeInviteH)
    case AdminSession(_) => Some(AdminSessionH)
    case Reextract(_) => None
    case Resummarize(_) => None
    case ListQuestions => Some(ListQuestionsH)
    case CreateQuestion => Some(CreateQuestionH)
    case UpdateQuestion(_) => Some(UpdateQuestionH)
    case DeleteQuestion(_) => Some(DeleteQuestionH)
    case ReorderQuestions => None
    case ListPrompts => Some(ListPromptsH)
    case CreatePrompt => Some(CreatePromptH)
    case ActivatePrompt(_) => Some(ActivatePromptH)
    case Budget => Some(BudgetH)
    case GetSettings => Some(GetSettingsH)
    case PutSettings => Some(PutSettingsH)
    case ResetSetting(_) => Some(ResetSettingH)
  }

  /** Where a call lands: the handler matching `/api` + its path. */
  function Lands(req: (HttpMethod, seq<string>)): Option<Handler> {
    Resolve(req.0, ["api"] + req.1)
  }

  /** As written, the invite hook's POST matches no handler and leaves the mock. */
  lemma InviteCreationMissesMock(id: string)
    requires |id| > 0
    ensures Lands(Request(CreateInvite(id))).None?
    ensures Intended(CreateInvite(id)) == Some(CreateInviteH)
  {
    var path := ["api", "admin", "employees", id, "invites"];
    assert Request(CreateInvite(id)) == (Post, path[1..]);
    assert ["api"] + path[1..] == path;
    ResolveMiss(Routes, Post, path, 0);
  }

  // ---------------------------------------------------------------------
  // Where each call lands, one call at a time
  // ---------------------------------------------------------------------

  lemma SessionByTokenLands(token: string)
    requires |token| > 0
    ensures Lands(Request(SessionByToken(token))) == Some(SessionByTokenH)
  {
    var path := ["api", "i", token];
    assert Request(SessionByToken(token)) == (Get, path[1..]);
    assert ["api"] + path[1..] == path;
    ResolveAt(Routes, Get, path, 0, 0);
  }

  lemma SessionByIdPassesThrough(sessionId: string)
    requires |sessionId| > 0
    ensures Lands(Request(SessionById(sessionId))).None?
  {
    var path := ["api", "sessions", sessionId];
    assert Request(SessionById(sessionId)) == (Get, path[1..]);
    assert ["api"] + path[1..] == path;
    ResolveMiss(Routes, Get, path, 0);
  }

  lemma SendMessageLands(sessionId: string)
    requires |sessionId| > 0
    ensures Lands(Request(SendMessage(sessionId))) == Some(SendMessageH)
  {
    var path := ["api", "sessions", sessionId, "message"];
    assert Request(SendMessage(sessionId)) == (Post, path[1..]);
    assert ["api"] + path[1..] == path;
    ResolveAt(Routes, Post, path, 1, 0);
  }

  lemma ListEmployeesLands()
    ensures Lands(Request(ListEmployees)) == Some(ListEmployeesH)
  {
    var path := ["api", "admin", "employees"];
    assert Request(ListEmployees) == (Get, path[1..]);
    assert ["api"] + path[1..] == path;
    ResolveAt(Routes, Get, path, 2, 0);
  }

  lemma GetEmployeeLands(id: string)
    requires |id| > 0
    ensures Lands(Request(GetEmployee(id))) == Some(GetEmployeeH)
  {
    var path := ["api", "admin", "employees", id];
    assert Request(GetEmployee(id)) == (Get, path[1..]);
    assert ["api"] + path[1..] == path;
    ResolveAt(Routes, Get, path, 3, 0);
  }

  lemma CreateEmployeeLands()
    ensures Lands(Request(CreateEmployee)) == Some(CreateEmployeeH)
  {
    var path := ["api", "admin", "employees"];
    assert Request(CreateEmployee) == (Post, path[1..]);
    assert ["api"] + path[1..] == path;
    ResolveAt(Routes, Post, path, 4, 0);
  }

  lemma UpdateEmployeeLands(id: string)
    requires |id| > 0
    ensures Lands(Request(UpdateEmployee(id))) == Some(UpdateEmployeeH)
  {
    var path := ["api", "admin", "employees", id];
    assert Request(UpdateEmployee(id)) == (Put, path[1..]);
    assert ["api"] + path[1..] == path;
    ResolveAt(Routes, Put, path, 5, 0);
  }

  lemma DeleteEmployeeLands(id: string)
    requires |id| > 0
    ensures Lands(Request(DeleteEmployee(id))) == Some(DeleteEmployeeH)
  {
    var path := ["api", "admin", "employees", id];
    assert Request(DeleteEmployee(id)) == (Delete, path[1..]);
    assert ["api"] + path[1..] == path;
    ResolveAt(Routes, Delete, path, 6, 0);
  }

  lemma EmployeeSessionsLands(id: string)
    requires |id| > 0
    ensures Lands(Request(EmployeeSessions(id))) == Some(EmployeeSessionsH)
  {
    var path := ["api", "admin", "employees", id, "sessions"];
    assert Request(EmployeeSessions(id)) == (Get, path[1..]);
    assert ["api"] + path[1..] == path;
    ResolveAt(Routes, Get, path, 7, 0);
  }

  lemma RevokeInviteLands(id: string)
    requires |id| > 0
    ensures Lands(Request(RevokeInvite(id))) == Some(RevokeInviteH)
  {
    var path := ["api", "admin", "employees", id, "invite"];
    assert Request(RevokeInvite(id)) == (Delete, path[1..]);
    assert ["api"] + path[1..] == path;
    ResolveAt(Routes, Delete, path, 9, 0);
  }

  lemma AdminSessionLands(sessionId: string)
    requires |sessionId| > 0
    ensures Lands(Request(AdminSession(sessionId))) == Some(AdminSessionH)
  {
    var path := ["api", "admin", "sessions", sessionId];
    assert Request(AdminSession(sessionId)) == (Get, path[1..]);
    assert ["api"] + path[1..] == path;
    ResolveAt(Routes, Get, path, 10, 0);
  }

  lemma ReextractPassesThrough(sessionId: string)
    requires |sessionId| > 0
    ensures Lands(Request(Reextract(sessionId))).None?
  {
    var path := ["api", "admin", "sessions", sessionId, "reextract"];
    assert Request(Reextract(sessionId)) == (Post, path[1..]);
    assert ["api"] + path[1..] == path;
    ResolveMiss(Routes, Post, path, 0);
  }

  lemma ResummarizePassesThrough(sessionId: string)
    requires |sessionId| > 0
    ensures Lands(Request(Resummarize(sessionId))).None?
  {
    var path := ["api", "admin", "sessions", sessionId, "resummarize"];
    assert Request(Resummarize(sessionId)) == (Post, path[1..]);
    assert ["api"] + path[1..] == path;
    ResolveMiss(Routes, Post, path, 0);
  }

  lemma ListQuestionsLands()
    ensures Lands(Request(ListQuestions)) == Some(ListQuestionsH)
  {
    var path := ["api", "admin", "questions"];
    assert Request(ListQuestions) == (Get, path[1..]);
    assert ["api"] + path[1..] == path;
    ResolveAt(Routes, Get, path, 11, 0);
  }

  lemma CreateQuestionLands()
    ensures Lands(Request(CreateQuestion)) == Some(CreateQuestionH)
  {
    var path := ["api", "admin", "questions"];
    assert Request(CreateQuestion) == (Post, path[1..]);
    assert ["api"] + path[1..] == path;
    ResolveAt(Routes, Post, path, 12, 0);
  }

  lemma UpdateQuestionLands(id: string)
    requires |id| > 0
    ensures Lands(Request(UpdateQuestion(id))) == Some(UpdateQuestionH)
  {
    var path := ["api", "admin", "questions", id];
    assert Request(UpdateQuestion(id)) == (Put, path[1..]);
    assert ["api"] + path[1..] == path;
    ResolveAt(Routes, Put, path, 13, 0);
  }

  lemma DeleteQuestionLands(id: string)
    requires |id| > 0
    ensures Lands(Request(DeleteQuestion(id))) == Some(DeleteQuestionH)
  {
    var path := ["api", "admin", "questions", id];
    assert Request(DeleteQuestion(id)) == (Delete, path[1..]);
    assert ["api"] + path[1..] == path;
    ResolveAt(Routes, Delete, path, 14, 0);
  }

  lemma ReorderQuestionsPassesThrough()
    ensures Lands(Request(ReorderQuestions)).None?
  {
    var path := ["api", "admin", "questions", "reorder"];
    assert Request(ReorderQuestions) == (Post, path[1..]);
    assert ["api"] + path[1..] == path;
    ResolveMiss(Routes, Post, path, 0);
  }

  lemma ListPromptsLands()
    ensures Lands(Request(ListPrompts)) == Some(ListPromptsH)
  {
    var path := ["api", "admin", "prompts"];
    assert Request(ListPrompts) == (Get, path[1..]);
    assert ["api"] + path[1..] == path;
    ResolveAt(Routes, Get, path, 15, 0);
  }

  lemma CreatePromptLands()
    ensures Lands(Request(CreatePrompt)) == Some(CreatePromptH)
  {
    var path := ["api", "admin", "prompts"];
    assert Request(CreatePrompt) == (Post, path[1..]);
    assert ["api"] + path[1..] == path;
    ResolveAt(Routes, Post, path, 16, 0);
  }

  lemma ActivatePromptLands(id: string)
    requires |id| > 0
    ensures Lands(Request(ActivatePrompt(id))) == Some(ActivatePromptH)
  {
    var path := ["api", "admin", "prompts", id, "activate"];
    assert Request(ActivatePrompt(id)) == (Post, path[1..]);
    assert ["api"] + path[1..] == path;
    ResolveAt(Routes, Post, path, 17, 0);
  }

  lemma BudgetLands()
    ensures Lands(Request(Budget)) == Some(BudgetH)
  {
    var path := ["api", "admin", "budget"];
    assert Request(Budget) == (Get, path[1..]);
    assert ["api"] + path[1..] == path;
    ResolveAt(Routes, Get, path, 18, 0);
  }

  lemma GetSettingsLands()
    ensures Lands(Request(GetSettings)) == Some(GetSettingsH)
  {
    var path := ["api", "admin", "settings"];
    assert Request(GetSettings) == (Get, path[1..]);
    assert ["api"] + path[1..] == path;
    ResolveAt(Routes, Get, path, 19, 0);
  }

  lemma PutSettingsLands()
    ensures Lands(Request(PutSettings)) == Some(PutSettingsH)
  {
    var path := ["api", "admin", "settings"];
    assert Request(PutSettings) == (Put, path[1..]);
    assert ["api"] + path[1..] == path;
    ResolveAt(Routes, Put, path, 20, 0);
  }

  lemma ResetSettingLands(key: string)
    requires |key| > 0
    ensures Lands(Request(ResetSetting(key))) == Some(ResetSettingH)
  {
    var path := ["api", "admin", "settings", key];
    assert Request(ResetSetting(key)) == (Delete, path[1..]);
    assert ["api"] + path[1..] == path;
    ResolveAt(Routes, Delete, path, 21, 0);
  }

  /** Every other hook lands on its intended handler (or, where the mock has none,
      on the network). */
  lemma OtherCallsLandAsIntended(c: Call)
    requires |Arg(c)| > 0 && !c.CreateInvite?
    ensures Lands(Request(c)) == Intended(c)
  {
    match c
    case SessionByToken(x) => SessionByTokenLands(x);
    case SessionById(x) => SessionByIdPassesThrough(x);
    case SendMessage(x) => SendMessageLands(x);
    case ListEmployees => ListEmployeesLands();
    case GetEmployee(x) => GetEmployeeLands(x);
    case CreateEmployee => CreateEmployeeLands();
    case UpdateEmployee(x) => UpdateEmployeeLands(x);
    case DeleteEmployee(x) => DeleteEmployeeLands(x);
    case EmployeeSessions(x) => EmployeeSessionsLands(x);
    case RevokeInvite(x) => RevokeInviteLands(x);
    case AdminSession(x) => AdminSessionLands(x);
    case Reextract(x) => ReextractPassesThrough(x);
    case Resummarize(x) => ResummarizePassesThrough(x);
    case ListQuestions => ListQuestionsLands();
    case CreateQuestion => CreateQuestionLands();
    case UpdateQuestion(x) => UpdateQuestionLands(x);
    case DeleteQuestion(x) => DeleteQuestionLands(x);
    case ReorderQuestions => ReorderQuestionsPassesThrough();
    case ListPrompts => ListPromptsLands();
    case CreatePrompt => CreatePromptLands();
    case ActivatePrompt(x) => ActivatePromptLands(x);
    case Budget => BudgetLands();
    case GetSettings => GetSettingsLands();
    case PutSettings => PutSettingsLands();
    case ResetSetting(x) => ResetSettingLands(x);
  }

  /** Sent to `/invite`, the invite creation reaches the mock's invite handler. */
  lemma CorrectedInviteLands(id: string)
    requires |id| > 0
    ensures Lands(RequestCorrected(CreateInvite(id))) == Some(CreateInviteH)
  {
    var path := ["api", "admin", "employees", id, "invite"];
    assert RequestCorrected(CreateInvite(id)) == (Post, path[1..]);
    assert ["api"] + path[1..] == path;
    ResolveAt(Routes, Post, path, 8, 0);
  }

  /** With the corrected path every call, the invite creation included, lands where
      it is meant to. */
  lemma CorrectedCallsLandAsIntended(c: Call)
    requires |Arg(c)| > 0
    ensures Lands(RequestCorrected(c)) == Intended(c)
  {
    if c.CreateInvite? {
      CorrectedInviteLands(c.id);
    } else {
      OtherCallsLandAsIntended(c);
    }
  }
}
