# Interview widget and mock backend of orgmapper-client, in Dafny

This project models the browser side of the orgmapper interview tool:

- **The chat container.** Two variants share one state machine, the legacy `ChatContainer` and the redesigned `ChatContainerRedesign`. It covers:
  - the polling gate (`shouldPoll`, `isPolling`, the 60-second timeout);
  - the draft and its copy in local storage;
  - sending a message (with the redesign's optimistic message);
  - what the container renders.
- **The pieces around the container:**
  - the two interview pages' initial-load decision;
  - the two message inputs' send guards;
  - the legacy list's sort by `sequence`, and the redesigned list's render order;
  - the HTTP client's response classification and `getErrorMessage`.
- **The msw mock backend.** This covers:
  - its in-memory store and every handler that reads or changes it;
  - the route table that decides which handler answers which client request.
- **The admin settings screen.** This covers:
  - the four validators;
  - the `SETTINGS_CONFIG` table;
  - the pending-changes/errors edit state and its save gate;
  - what each field shows.
- **The employee list's status badges.**

Time is an integer millisecond clock, passed to every operation that reads `Date.now()`. Local storage is a `map<string, string>`. The idempotency key and the invite token are parameters; in the source they come from `crypto.randomUUID` and `Math.random`. A JavaScript object used as a table is an ordered list of rows (`KeyedTable`), because the mock relies on insertion order when it looks a session up by id.

Module layout:

| file | module | what it holds |
|---|---|---|
| js_core.dfy | JsCore | `Option`/`Result`, numbers as `Number()` sees them, `String(n)`, `trim`, `filter`, `findIndex`, UTF-16 length |
| api_types.dfy | ApiTypes | the wire records: statuses, messages, sessions, employees, invites, questions, prompts, settings |
| api_client.dfy | ApiClient | `request` classification, `getErrorMessage` and what a caller can read off its text |
| chat_input.dfy | ChatInput | both inputs' guards, Enter handling, disabled button |
| chat_page.dfy | ChatPage | both pages' initial-load view |
| message_list.dfy | MessageOrder | the stable sort by sequence and both list renderings |
| chat_engine.dfy | ChatEngine | the container state, its events and its view |
| chat_engine_props.dfy | ChatEngineProps | timeout, polling-gate, optimistic-message and draft properties |
| employees_page.dfy | EmployeesPage | status colours and labels, the table rows |
| keyed_table.dfy | KeyedTable | a JavaScript object as an insertion-ordered table |
| mock_data.dfy | MockData | the fixture data and the setting defaults |
| mock_store.dfy | MockStore | one pure function per mock handler |
| mock_store_props.dfy | MockStoreProps | the store invariant and the handler properties |
| mock_routes.dfy | MockRoutes | msw's first-match routing and where each client call lands |
| settings_validation.dfy | SettingsValidation | the four validators |
| settings_config.dfy | SettingsConfig | `SETTINGS_CONFIG`, its option lists and its consistency with the validators |
| settings_page.dfy | SettingsPage | grouping, the edit state machine, the save gate, the displayed fields |

## Model

| member | source | states |
|---|---|---|
| JsCore.IntToString | src/mocks/handlers.ts:81 | `String(n)` of an integer is non-empty and starts with '-' exactly for negative numbers |
| JsCore.IntToStringInjective | src/mocks/handlers.ts:81 | distinct integers print differently, so the ids the mock builds from counters ("m"+n, "p"+n, "q"+n, `String(count+1)`) differ exactly when the counters do |
| JsCore.ParseNatToString | src/mocks/handlers.ts:81 | decimal rendering round-trips: parsing the digits of `String(n)` gives back n |
| JsCore.Filter | src/mocks/handlers.ts:125 | an element is in the result of `filter` iff it is in the input and passes the test; the result is never longer |
| JsCore.FilterAppend | src/mocks/handlers.ts:125 | `filter` distributes over concatenation, so what it keeps stays in its original order |
| JsCore.FilterSingle | src/mocks/handlers.ts:239 | on a one-element list `filter` keeps the element iff it passes; with FilterAppend this fixes the result's order and multiplicity |
| JsCore.FilterAll | src/mocks/handlers.ts:230 | filtering with a test every element passes returns the list unchanged |
| JsCore.FindIndex | src/mocks/handlers.ts:113 | `findIndex` is -1 iff no element passes; otherwise it is the first passing index |
| JsCore.FilterFirst | src/mocks/handlers.ts:246-255 | `filter` is empty iff `findIndex` is -1; otherwise the first element kept is the element at `findIndex` |
| JsCore.TrimIsCore | src/features/chat/ChatInput.tsx:13 | `trim` keeps the stretch from the first to the last non-whitespace character; what it drops at either end is whitespace; the result is empty iff all of the text is whitespace |
| JsCore.TrimEmptyIff | src/features/chat/ChatInputRedesign.tsx:16 | `value.trim()` is falsy exactly when every character is whitespace |
| JsCore.TrimIdempotent | src/features/chat/ChatInput.tsx:18 | trimming the text that was sent changes nothing more |
| JsCore.Trim | src/features/chat/ChatInput.tsx:13 | the trimmed text is no longer than the text, neither starts nor ends with whitespace, and is empty iff every character is whitespace |
| JsCore.AllWhitespaceIff | src/features/chat/ChatInputRedesign.tsx:16 | the first non-whitespace index comes before the end of the content unless every character is whitespace |
| JsCore.Utf16Length | src/features/chat/ChatInput.tsx:13 | `value.length` counts UTF-16 units: at least the number of characters, at most twice it |
| JsCore.Utf16LengthOfBmp | src/features/chat/ChatInput.tsx:39 | for text without astral characters the counter shows the number of characters |
| ApiTypes.StatusClassesDisjoint | src/api/types.ts:1-8 | no status is both processing (COMPLETED, EXTRACTING, SUMMARIZING) and terminal (FINALIZED, ERROR); the wire names identify the statuses |
| ApiClient.StatusLine | src/api/client.ts:7 | an `ApiRequestError`'s message ends in the status text, after a status prefix that starts with a digit or '-' |
| ApiClient.Request | src/api/client.ts:53-59 | a non-ok response rejects with an `ApiRequestError` carrying the status, the status text and the parsed body (none when it does not parse), and only such a response does; 204 resolves with no body; any other ok response resolves with its JSON, or rejects with the parser's SyntaxError when the body is not JSON; a network failure rejects with a TypeError |
| ApiClient.GetErrorMessage | src/api/client.ts:15-39 | a status of 404, 409, 410, 429, 503 or 500 and above always shows one of the client's own texts, never what the server sent; any text that is not one of the client's own is the server's `detail` or the error's status line; a TypeError shows the connectivity text iff its message mentions "fetch" and its own message otherwise; any other Error shows its own message; a thrown non-Error shows "Неизвестная ошибка" |
| ApiClient.FixedTextIdentifiesStatus | src/api/client.ts:17-28 | for those statuses the text depends on the status alone, not on the status text or the body; two of them show the same text iff both are 404/410 or both are 500 and above other than 503 |
| ApiClient.StatusTexts | src/api/client.ts:17-32 | 404 and 410 share the invalid-link text; 409 shows the conflict text and 429 the rate-limit text; 503 takes precedence over the generic server error; any other status of 500 or more gets the server-error text; an unlisted status below 500 without `detail` shows "<status> <statusText>" |
| ApiClient.NotFoundReadsAsInvalidLink | src/api/client.ts:18-20 | a 404 or 410 response, whatever its body, reads as the invalid-link text |
| ApiClient.NetworkFailureIsNotAnHttpError | src/api/client.ts:34-35 | a failed fetch whose message mentions "fetch" shows the connectivity text, which no HTTP status shows |
| ApiClient.ReportedStatusText | src/api/client.ts:29-32 | through `request`, a failed response with any other status shows the `detail` of its JSON object body when there is one, and otherwise "<status> <statusText>" |
| ChatInput.HasContentIffTrimmed | src/features/chat/ChatInput.tsx:13 | the text has a non-whitespace character iff its trimmed form is non-empty |
| ChatInput.CanSend | src/features/chat/ChatInput.tsx:13 | `canSend` iff there is something besides whitespace, the raw untrimmed length is within `maxLength`, and the input is enabled |
| ChatInput.OnButton | src/features/chat/ChatInput.tsx:22-24 | the button sends iff `canSend`, and what it sends is the non-empty trimmed text |
| ChatInput.OnKeyDown | src/features/chat/ChatInput.tsx:15-20 | Shift+Enter never sends; plain Enter sends exactly what the button would; other keys never send |
| ChatInput.ButtonDisabled | src/features/chat/ChatInput.tsx:42 | the legacy button is disabled exactly when pressing it would send nothing |
| ChatInput.RedCounterDisablesButton | src/features/chat/ChatInput.tsx:39 | a red counter (length over the bound) always comes with a disabled button |
| ChatInput.TrailingSpaceExceedsBound | src/features/chat/ChatInput.tsx:13 | the bound applies to the untrimmed text: 2000 letters plus one space cannot be sent, although the trimmed text is within the bound |
| ChatInput.Submit | src/features/chat/ChatInputRedesign.tsx:14-19 | the redesigned input submits iff the text has a non-whitespace character and the input is enabled, and it sends the trimmed text |
| ChatInput.OnKeyDownRedesign | src/features/chat/ChatInputRedesign.tsx:21-26 | plain Enter goes through the same guard as the form submit; any other key sends nothing |
| ChatInput.ButtonDisabledRedesign | src/features/chat/ChatInputRedesign.tsx:55 | the redesigned button is disabled exactly when a submit would send nothing |
| ChatInput.InputsDifferOnlyInLength | src/features/chat/ChatInputRedesign.tsx:16 | whatever the legacy input sends the redesigned one sends too, and within the bound the two agree |
| ChatInput.RedesignHasNoLengthBound | src/features/chat/ChatInputRedesign.tsx:14-19 | 2001 letters are sent by the redesigned input and refused by the legacy one |
| ChatPage.LegacyPage | src/features/chat/ChatPage.tsx:13-51 | a missing or empty token shows the invalid-link notice before anything else; then come the loader, then `getErrorMessage(error)`, then "session not found"; the chat opens iff the token is present, loading is done, there is no error and there is a session, and it gets exactly that session and token |
| ChatPage.RedesignPage | src/features/chat/ChatPageRedesign.tsx:10-28 | the loader shows iff loading; any error or a missing session shows one fixed text; otherwise the chat gets the session and the unchecked token |
| ChatPage.ExpiredLinkTexts | src/features/chat/ChatPage.tsx:31-37 | a 404 or 410 from the token lookup shows the invalid-link text on the legacy page and the fixed "not found or expired" text on the redesigned one |
| ChatPage.PagesAgreeOnChat | src/features/chat/ChatPageRedesign.tsx:28 | once a token is present, both pages open the chat on the same query states, with the same session and token, and show the loader on the same states |
| ChatPage.MissingTokenGate | src/features/chat/ChatPageRedesign.tsx:8-26 | with the query disabled by a missing or empty token (`enabled: !!token`: not loading, no error, no data), the legacy page shows the invalid-link notice and the redesigned page the "not found or expired" text |
| ChatPage.QueryFor | src/api/hooks/useSession.ts:9 | without a token the session query is disabled: not loading, no error, no data; with one it is whatever the fetch gave |
| ChatPage.PagesOpenTheSameChats | src/features/chat/ChatPageRedesign.tsx:8-28 | for every token and fetch outcome, the legacy page opens the chat iff the redesigned one does, and then with the same session and token |
| MessageOrder.SortBySequence | src/features/chat/MessageList.tsx:14 | the sort of the copy keeps the number of messages |
| MessageOrder.SortSorts | src/features/chat/MessageList.tsx:14 | the output is in ascending `sequence` order |
| MessageOrder.SortPermutes | src/features/chat/MessageList.tsx:14 | the output is a permutation of the input (same multiset) |
| MessageOrder.SortIsStable | src/features/chat/MessageList.tsx:14 | the sort is stable: for every sequence number, the messages carrying it keep their relative order |
| MessageOrder.SortedDeterminedByGroups | src/features/chat/MessageList.tsx:14 | two sorted lists with the same groups of equal sequence number are equal |
| MessageOrder.SortDependsOnlyOnGroups | src/features/chat/MessageList.tsx:14 | two inputs sort to the same list iff every group of equal sequence number arrives in the same order in both |
| MessageOrder.SortIgnoresArrivalOrder | src/features/chat/MessageList.tsx:14 | with distinct sequence numbers, any two arrival orders of the same messages sort to the same list |
| MessageOrder.Bubbles | src/features/chat/MessageListRedesign.tsx:22-24 | one bubble per message, in array order |
| MessageOrder.RenderLegacy | src/features/chat/ChatContainer.tsx:116-118 | the legacy list is the messages, sorted and permuted only, followed by the typing indicator iff a send is pending |
| MessageOrder.RenderRedesign | src/features/chat/MessageListRedesign.tsx:22-28 | the redesigned list is the messages in array order (no sorting), then the optimistic message if any, then the typing indicator iff typing |
| MessageOrder.RedesignBubbleCount | src/features/chat/MessageListRedesign.tsx:22-27 | the redesigned list shows n bubbles, plus one when there is an optimistic message |
| ChatEngine.SetDraft | src/features/chat/ChatContainerRedesign.tsx:47-56 | setting the draft changes only the draft; the save timer restarts exactly when the value differs |
| ChatEngine.Working | src/features/chat/ChatContainerRedesign.tsx:37 | `polledSession \|\| initialSession`: a poll result, once there, is the session shown; before it, the session prop |
| ChatEngine.ShouldPoll | src/features/chat/ChatContainerRedesign.tsx:30 | `shouldPoll` holds iff the session prop is COMPLETED, EXTRACTING or SUMMARIZING |
| ChatEngine.PollEnabled | src/features/chat/ChatContainerRedesign.tsx:32-35 | the poll query never runs after the timeout, and runs whenever the session prop is processing and there is no timeout |
| ChatEngine.InputShown | src/features/chat/ChatContainerRedesign.tsx:117-119 | the input shows iff the working session is neither processing nor final and polling has not timed out |
| ChatEngine.ObserveStatus | src/features/chat/ChatContainerRedesign.tsx:59-70 | a processing status sets `isPolling` and records the start time only when none is recorded (0 counts as none); FINALIZED or ERROR clears both; other statuses change nothing; nothing else changes |
| ChatEngine.Rerender | src/features/chat/ChatContainerRedesign.tsx:70 | the status effect runs exactly when the working session's status changed |
| ChatEngine.Mount | src/features/chat/ChatContainerRedesign.tsx:22-70 | a fresh container loads the stored draft, starts with no error, optimistic message, request or timeout, and polls iff the given session is processing |
| ChatEngine.Tick | src/features/chat/ChatContainerRedesign.tsx:72-82 | the check times out iff it was already timed out, or it is polling with a recorded start more than 60000 ms ago; a firing check sets the timeout and stops polling, and changes nothing else |
| ChatEngine.PollResult | src/features/chat/ChatContainerRedesign.tsx:32-37 | a poll result becomes the working session (`polledSession \|\| initialSession`) and leaves the draft, the request, the error and the timeout alone |
| ChatEngine.Refresh | src/features/chat/ChatContainerRedesign.tsx:37 | a new `session` prop replaces the initial session; while a polled snapshot exists it changes nothing else |
| ChatEngine.Edit | src/features/chat/ChatContainerRedesign.tsx:165-171 | typing changes the draft only while the input is shown and enabled |
| ChatEngine.DraftTimer | src/features/chat/ChatContainer.tsx:46-56 | after 2000 quiet ms a non-empty draft is stored under `chat_draft_<token>` and an empty draft removes the key; earlier, nothing happens |
| ChatEngine.TempMessage | src/features/chat/ChatContainerRedesign.tsx:88-94 | the optimistic message is the user's, carries the sent text, has sequence `messages.length + 1` and an id starting "temp-" |
| ChatEngine.SendStart | src/features/chat/ChatContainerRedesign.tsx:84-103 | a send clears the error and puts the request in flight; the redesign also shows the optimistic message and empties the draft and its stored copy; the legacy container changes nothing else; polling is untouched |
| ChatEngine.InputSends | src/features/chat/ChatContainerRedesign.tsx:166-171 | the container's input sends the non-empty trimmed draft, only when nothing is in flight; in the redesign, exactly when the draft has content |
| ChatEngine.Submit | src/features/chat/ChatContainer.tsx:138-145 | a submit starts a send of the trimmed draft iff the input is shown and its guard passes; otherwise nothing changes |
| ChatEngine.SendSuccess | src/features/chat/ChatContainerRedesign.tsx:99-108 | the request leaves flight; the redesign drops the optimistic message; the legacy container clears the draft and its stored copy; `is_complete` turns polling on from now, whatever start was recorded |
| ChatEngine.SendFailure | src/features/chat/ChatContainerRedesign.tsx:109-114 | the error becomes `getErrorMessage(err)`; the redesign drops the optimistic message and puts the sent text back in the draft; the legacy container changes nothing else; polling and storage are untouched |
| ChatEngine.Step | src/features/chat/ChatContainerRedesign.tsx:22-115 | no event changes the variant or the token; only a refetch replaces the session prop and only a poll result the polled snapshot |
| ChatEngine.Run | src/features/chat/ChatContainerRedesign.tsx:22-115 | over any sequence of events the variant and token stay; without a refetch the session prop stays, without a poll result the snapshot |
| ChatEngine.View | src/features/chat/ChatContainerRedesign.tsx:117-172 | FINALIZED or ERROR shows the final screen with the working session; otherwise the processing banner shows iff processing and not timed out, the timeout banner iff timed out, the input iff neither (disabled iff a send is pending), and the error iff it is a non-empty string; the legacy list is the session's messages sorted by sequence (a permutation of them), followed by the typing indicator iff a send is pending; the redesigned list is the messages in array order, the optimistic message, then the typing indicator |
| ChatEngineProps.StepKeepsTimeout | src/features/chat/ChatContainerRedesign.tsx:26 | no event resets `pollingTimedOut` |
| ChatEngineProps.RunAppend | src/features/chat/ChatContainerRedesign.tsx:22-115 | running two batches of events one after the other is the same as running them as one sequence |
| ChatEngineProps.TimeoutIsAbsorbing | src/features/chat/ChatContainerRedesign.tsx:73-82 | after a timeout, whatever events follow, the poll query stays disabled, the input stays hidden and the timeout banner stays |
| ChatEngineProps.TimeoutIsStrict | src/features/chat/ChatContainerRedesign.tsx:76 | exactly 60000 ms after the start the check does not fire; 60001 ms after, it does and polling stops |
| ChatEngineProps.UnrecordedStartNeverTimesOut | src/features/chat/ChatContainerRedesign.tsx:76 | with no start time recorded, or a start time of 0, the check never fires |
| ChatEngineProps.ProcessingMountTimesOut | src/features/chat/ChatContainer.tsx:73-82 | mounted on a processing session, the container polls, and the first check more than a minute later shows only the timeout banner and disables the query |
| ChatEngineProps.TerminalPollLeavesShouldPoll | src/features/chat/ChatContainerRedesign.tsx:30-35 | a poll bringing FINALIZED or ERROR clears `isPolling` and shows the final screen, yet the query stays enabled iff `shouldPoll` holds and polling has not timed out |
| ChatEngineProps.FinalizedWhileMountedProcessing | src/features/chat/ChatContainerRedesign.tsx:66-69 | mounted on a processing session, a FINALIZED poll shows the final screen while the poll query keeps running |
| ChatEngineProps.MountEstablishesInv | src/features/chat/ChatContainerRedesign.tsx:27 | a fresh container has no optimistic message, so the optimistic-message invariant holds |
| ChatEngineProps.StepKeepsInv | src/features/chat/ChatContainerRedesign.tsx:95-111 | every event keeps the invariant: the legacy container never has an optimistic message; the redesign has one exactly while a request is in flight, and it is the user's, with the text being sent |
| ChatEngineProps.RunKeepsInv | src/features/chat/ChatContainerRedesign.tsx:84-115 | the invariant holds after any sequence of events |
| ChatEngineProps.RedesignPendingView | src/features/chat/ChatContainerRedesign.tsx:135-139 | while the redesign awaits a reply, the list is the messages, the optimistic message and the typing indicator: one bubble more than the session holds |
| ChatEngineProps.LegacyPendingView | src/features/chat/ChatContainer.tsx:116-118 | while the legacy container awaits a reply, the list is the session's messages in ascending sequence order (a permutation of them), followed by the typing indicator and nothing else |
| ChatEngineProps.OptimisticSequenceCanRepeat | src/features/chat/ChatContainerRedesign.tsx:92 | the optimistic sequence is length + 1, not max + 1: with sequences 2 and 3 it repeats 3 |
| ChatEngineProps.RedesignFailureRestoresDraft | src/features/chat/ChatContainerRedesign.tsx:109-114 | a failed redesign send puts the trimmed text back in the draft, removes the optimistic message, shows the error and leaves the session as it was; the stored copy stays removed |
| ChatEngineProps.RestoredDraftIsStoredAgain | src/features/chat/ChatContainerRedesign.tsx:47-56 | the text put back after a failure is stored again 2000 ms after the failure |
| ChatEngineProps.LegacyFailureKeepsDraft | src/features/chat/ChatContainer.tsx:97-99 | a failed legacy send keeps the untrimmed draft and its stored copy and only sets the error |
| ChatEngineProps.SuccessClearsDraft | src/features/chat/ChatContainer.tsx:91-92 | after a successful send in either variant the draft is empty and its key is not in storage |
| ChatEngineProps.CompleteReplyRestartsPolling | src/features/chat/ChatContainer.tsx:93-96 | a reply with `is_complete` starts polling from the reply's time, and the query runs unless polling had timed out |
| ChatEngineProps.DraftSurvivesRemount | src/features/chat/ChatContainer.tsx:41-56 | after the quiet period, a container mounted later for the same token starts with the same draft (empty stays empty) |
| ChatEngineProps.DraftNotSavedEarly | src/features/chat/ChatContainer.tsx:47-55 | before 2000 quiet ms nothing is written |
| EmployeesPage.BadgeKeyOf | src/features/employees/EmployeesPage.tsx:61 | `latest_session_status \|\| 'none'`: "none" iff there is no status, otherwise the status itself |
| EmployeesPage.StatusColor | src/features/employees/EmployeesPage.tsx:9-18 | every badge key has a colour from the five-colour palette; the three processing statuses are yellow; FINALIZED and ERROR are neither yellow nor grey |
| EmployeesPage.StatusLabel | src/features/employees/EmployeesPage.tsx:20-29 | every badge key has a non-empty label; the three processing statuses read "Обработка" |
| EmployeesPage.LabelsSeparateAllButProcessing | src/features/employees/EmployeesPage.tsx:20-29 | two badge keys get the same label iff they are equal or both are processing statuses |
| EmployeesPage.ColoursMergeNotStartedAndNone | src/features/employees/EmployeesPage.tsx:9-18 | colours are coarser than labels: they also merge NOT_STARTED with "none", which the labels keep apart |
| EmployeesPage.OrDash | src/features/employees/EmployeesPage.tsx:70-71 | a present, non-empty position or department shows itself; "—" shows iff the value is missing, empty or itself "—" |
| EmployeesPage.RowOf | src/features/employees/EmployeesPage.tsx:60-73 | a row shows the employee's id, name and email, and the label and colour of its badge key |
| EmployeesPage.EmployeesView | src/features/employees/EmployeesPage.tsx:35-46 | the skeleton shows iff loading; then the error text; the empty notice iff the list is missing or empty; otherwise one row per employee, in order |
| EmployeesPage.NewAndNotStartedRows | src/features/employees/EmployeesPage.tsx:10-28 | an employee without a session is grey "Новый"; one with NOT_STARTED is grey "Не начата" |
| SettingsValidation.ValidateTemperature | src/features/settings/validation.ts:1-7 | accepted iff a finite number in [0, 1], both bounds included; otherwise the one fixed message |
| SettingsValidation.ValidatePositiveInt | src/features/settings/validation.ts:9-15 | accepted iff an integral number greater than 0; otherwise the one fixed message |
| SettingsValidation.ValidateReasoningEffort | src/features/settings/validation.ts:17-22 | accepted iff exactly "low", "medium" or "high" |
| SettingsValidation.ValidateProvider | src/features/settings/validation.ts:24-29 | accepted iff exactly "openai", "anthropic" or "mock" |
| SettingsValidation.Apply | src/features/settings/validation.ts:1-29 | each validator, applied through its coercion, rejects only with its own message |
| SettingsValidation.TemperatureBounds | src/features/settings/validation.ts:3 | 0 and 1 pass; -0.1, 1.1, NaN and both infinities fail |
| SettingsValidation.PositiveIntAcceptsExactlyPositiveWholeNumbers | src/features/settings/validation.ts:11 | a whole number passes iff it is positive; fractions, 0.5 and 0 fail |
| SettingsValidation.MessagesDistinct | src/features/settings/validation.ts:1-29 | the four messages are distinct, so a message names the check that failed |
| SettingsConfig.Entry | src/features/settings/config.ts:34-59 | each key's metadata carries that key |
| SettingsConfig.KeysInOrder | src/features/settings/config.ts:32-60 | the catalogue lists twenty keys in display order |
| SettingsConfig.Position | src/features/settings/config.ts:32-60 | each key has a position in the catalogue holding that key's metadata |
| SettingsConfig.PositionOfKeyAt | src/features/settings/config.ts:32-60 | a key's position is the index at which the catalogue lists it |
| SettingsConfig.PositionOfEntry | src/features/settings/config.ts:32-60 | every entry sits at its own key's position and is that key's metadata |
| SettingsConfig.EachKeyOnce | src/features/settings/config.ts:32-60 | each of the twenty setting keys appears exactly once in `SETTINGS_CONFIG` |
| SettingsConfig.FindMeta | src/features/settings/SettingsPage.tsx:24 | `SETTINGS_CONFIG.find(s => s.key === key)` finds a catalogue entry with that name, or there is none |
| SettingsConfig.KeyNameInjective | src/api/types.ts:178-202 | the wire names of the setting keys are distinct |
| SettingsConfig.KeyName | src/api/types.ts:178-202 | every setting key has a non-empty wire name |
| SettingsConfig.GroupLabel | src/features/settings/config.ts:62-70 | `GROUP_LABELS` gives every group a non-empty heading |
| SettingsConfig.GroupLabelInjective | src/features/settings/config.ts:62-70 | no two groups share a heading |
| SettingsConfig.FindMetaOfKeyName | src/features/settings/SettingsPage.tsx:24 | looking a key up by its wire name finds that key's entry |
| SettingsConfig.ProviderOptionsMatchValidator | src/features/settings/config.ts:19-23 | each provider select offers exactly the values the provider validator accepts |
| SettingsConfig.ReasoningOptionMinimalRejected | src/features/settings/config.ts:25-30 | the reasoning select offers "minimal", which its validator rejects; every other option passes |
| SettingsConfig.SlidersMatchTemperature | src/features/settings/config.ts:36-48 | every slider runs from 0 to 1 in steps of 0.1 under the temperature validator, and each stop inside the range passes it |
| SettingsConfig.FreeTextHasNoValidator | src/features/settings/config.ts:35-57 | exactly the three model names and the welcome message carry no validator |
| SettingsPage.InGroup | src/features/settings/SettingsPage.tsx:18 | a group's list holds only entries of that group |
| SettingsPage.InGroupKeeps | src/features/settings/SettingsPage.tsx:18 | no entry of the group is dropped from its list |
| SettingsPage.GroupsListed | src/features/settings/SettingsPage.tsx:8 | `GROUPS` lists every setting group |
| SettingsPage.SettingsByGroup | src/features/settings/SettingsPage.tsx:15-20 | every group has a list, and it is that group's entries in catalogue order (applied to the catalogue) |
| SettingsPage.GroupsPartition | src/features/settings/SettingsPage.tsx:15-20 | the group lists, concatenated in `GROUPS` order, are a permutation of the entries: each entry is in exactly one group |
| SettingsPage.Validate | src/features/settings/SettingsPage.tsx:24-25 | the error recorded for a value is null or one of the validators' messages |
| SettingsPage.ValidateByName | src/features/settings/SettingsPage.tsx:24-25 | for a setting's own name the recorded error is that setting's validator's verdict, or null without a validator |
| SettingsPage.ValidateUnknownName | src/features/settings/SettingsPage.tsx:25 | a name that is no setting's records no error |
| SettingsPage.HandleChange | src/features/settings/SettingsPage.tsx:22-27 | the key's pending value is set and its error recomputed; every other key is unchanged in both maps |
| SettingsPage.HandleReset | src/features/settings/SettingsPage.tsx:29-41 | only once the reset resolves does the key leave both maps; every other key is unchanged |
| SettingsPage.HandleSave | src/features/settings/SettingsPage.tsx:43-52 | a successful save empties both maps; a failed one changes nothing |
| SettingsPage.SaveButtonOf | src/features/settings/SettingsPage.tsx:69-70 | the button is disabled iff nothing is pending or some recorded error is non-null; it shows the spinner iff an update is in flight; it can be clicked iff no update is in flight, something is pending and no error is recorded; the count shows iff something is pending and equals the number of pending keys |
| SettingsPage.StepKeepsConsistent | src/features/settings/SettingsPage.tsx:22-52 | each handler keeps the edit state consistent: the two maps have the same keys, and each error is the validator's verdict on the pending value |
| SettingsPage.ApplyAllKeepsConsistent | src/features/settings/SettingsPage.tsx:22-52 | consistency holds after any sequence of changes, resets and saves |
| SettingsPage.SaveGate | src/features/settings/SettingsPage.tsx:54-55 | in a consistent state, saving is enabled iff something is pending and every pending value passes its validator |
| SettingsPage.InvalidChangeBlocksSave | src/features/settings/SettingsPage.tsx:69 | a value its validator rejects disables saving |
| SettingsPage.CorrectionEnablesSave | src/features/settings/SettingsPage.tsx:69 | correcting the only faulty value enables saving |
| SettingsPage.SaveOutcomes | src/features/settings/SettingsPage.tsx:43-52 | after a successful save the button is disabled again; a failed save keeps everything |
| SettingsPage.ShowField | src/features/settings/SettingsGroup.tsx:25-33 | a field shows the pending value whenever the key is pending (even `undefined`), else the stored value; the source is "default" unless a setting is stored; an error shown is the one recorded for the key |
| SettingsPage.GroupFields | src/features/settings/SettingsGroup.tsx:24 | a group shows one field per entry of its list, in order |
| SettingsPage.EveryEntryShown | src/features/settings/SettingsGroup.tsx:24 | every catalogue entry is shown in its own group |
| SettingsPage.ChangeIsShown | src/features/settings/SettingsGroup.tsx:26-33 | after a change the field shows the new value and its validator's verdict |
| SettingsPage.PendingShadowsStored | src/features/settings/SettingsGroup.tsx:26 | a pending `undefined` shadows the stored value, while the source still comes from the stored setting |
| SettingsPage.ResetShowsStored | src/features/settings/SettingsGroup.tsx:25-33 | after a resolved reset the field shows the stored value, source and no error |
| SettingsPage.ChangeThenResetRestoresField | src/features/settings/SettingsGroup.tsx:26-33 | a change followed by a resolved reset gives back the field shown before the change |
| KeyedTable.Get | src/mocks/handlers.ts:18 | `obj[key]` is present iff the key is in the table, and it is the value of a row with that key |
| KeyedTable.Set | src/mocks/handlers.ts:154 | assignment keeps an existing key in place and appends a new key last |
| KeyedTable.SetThenGet | src/mocks/handlers.ts:154 | after `obj[key] = v` the key reads v and every other key reads what it did before |
| KeyedTable.Delete | src/mocks/handlers.ts:176 | after `delete obj[key]` the key is absent and every other key reads as before |
| KeyedTable.SetKeepsUnique | src/mocks/handlers.ts:154 | assignment keeps the keys unique |
| KeyedTable.DeleteKeepsUnique | src/mocks/handlers.ts:176 | deletion keeps the keys unique |
| KeyedTable.DeleteAbsent | src/mocks/handlers.ts:176 | deleting an absent key changes nothing |
| KeyedTable.DeleteAppended | src/mocks/handlers.ts:176 | deleting the key just appended restores the table it was appended to |
| MockStore.OrElse | src/mocks/handlers.ts:84-85 | `s \|\| fallback`: a non-empty string is kept; an empty or missing one gives the fallback |
| MockStore.OrNull | src/mocks/handlers.ts:86-87 | `s \|\| null`: null iff the string is missing or empty |
| MockStore.GetSessionByToken | src/mocks/handlers.ts:16-21 | 404 iff no session has the token; otherwise 200 with that session; the store is unchanged |
| MockStore.SessionIndex | src/mocks/handlers.ts:30 | the first session in insertion order with the id, or -1 iff none has it |
| MockStore.SendMessage | src/mocks/handlers.ts:24-61 | an unknown id gives 404 and no change; otherwise [user, assistant] is appended with sequences n+1 and n+2 and ids from the message counter, the counter advances by 2, `is_complete` is false, and nothing else changes |
| MockStore.GetEmployee | src/mocks/handlers.ts:70-75 | 404 iff the id is unknown, otherwise the employee |
| MockStore.CreateEmployee | src/mocks/handlers.ts:78-104 | the new id is `String(count + 1)`; missing name/email become "", missing position/department null; the list gains a row with no status, no activity and no invite |
| MockStore.RowIndex | src/mocks/handlers.ts:113 | the first list row with the id, or -1 iff none has it |
| MockStore.UpdateRow | src/mocks/handlers.ts:113-116 | only the first row with the id is changed; the list keeps its length |
| MockStore.UpdateEmployee | src/mocks/handlers.ts:107-118 | an unknown id gives 404 and no change; otherwise the record and its first list row are merged with the body |
| MockStore.DeleteEmployee | src/mocks/handlers.ts:121-127 | always 204; the employee goes and every other employee keeps its record; the list is the old list without the rows of that id, in order; sessions are untouched |
| MockStore.EmployeeSessions | src/mocks/handlers.ts:130-134 | the admin sessions of that employee, in insertion order, each as often as stored |
| MockStore.GetAdminSession | src/mocks/handlers.ts:189-194 | 404 iff no admin session has the id; otherwise one that has it |
| MockStore.CreateInvite | src/mocks/handlers.ts:137-167 | an unknown employee gives 404 and no change; otherwise the employee gets the new invite, the token maps to a NOT_STARTED session holding the greeting as message 1, and the employee's row is flagged |
| MockStore.RevokeInvite | src/mocks/handlers.ts:170-186 | an unknown employee gives 404 and no change; otherwise the active invite's session is deleted, the invite cleared and the row unflagged, with 204 |
| MockStore.InviteSession | src/mocks/handlers.ts:153-159 | an invite's session has the given id, is NOT_STARTED, has no summary, and holds exactly one message: the assistant's greeting, sequence 1 |
| MockStore.CreateQuestion | src/mocks/handlers.ts:202-217 | 201; id "q" + (n+1); a missing or 0 sort order becomes n+1; a missing or empty text and question key become "", a missing or empty title and answer guidance null; active, version 1; appended last with nothing else changed |
| MockStore.UpdateQuestion | src/mocks/handlers.ts:219-226 | 404 iff no question has the id; otherwise the first one is merged with the body and returned |
| MockStore.DeleteQuestion | src/mocks/handlers.ts:228-232 | always 204; the questions with other ids remain, in their order |
| MockStore.ListPrompts | src/mocks/handlers.ts:235-241 | no or empty type lists all prompts; otherwise the prompts of the type, in stored order |
| MockStore.MaxVersion | src/mocks/handlers.ts:247 | `Math.max(0, ...versions)`: at least 0, at least every version, and 0 or one of them |
| MockStore.SameType | src/mocks/handlers.ts:246 | the prompts of the type in stored order; non-empty iff some prompt has the type, and then its first element is the first such prompt |
| MockStore.CreatePrompt | src/mocks/handlers.ts:243-259 | 201; the new prompt's version is one more than the type's highest (1 if none); it is inactive, takes the variables of the first stored prompt of the type (none without one) and id "p" + (n+1), and is appended with nothing else changed |
| MockStore.ActivatePrompt | src/mocks/handlers.ts:261-268 | 404 iff no prompt has the id; otherwise every prompt of the target's type is switched off, the target on, others untouched |
| MockStore.PutSettings | src/mocks/handlers.ts:282-289 | every body key is stored with source "database"; other keys are unchanged |
| MockStore.Restored | src/mocks/handlers.ts:295-298 | a restored default keeps its value; a "database" source reads "default"; other defaults are kept as they are |
| MockStore.ResetSetting | src/mocks/handlers.ts:291-301 | always 204; a key without a default is a no-op; otherwise the key gets its restored default |
| MockStoreProps.InitialWellFormed | src/mocks/data.ts:55-104 | the fixture store is well formed: unique tokens, messages numbered 1..n, at most one active prompt per type, prompt ids p1..pn |
| MockStoreProps.SendKeepsWellFormed | src/mocks/handlers.ts:35-54 | a send keeps the store well formed |
| MockStoreProps.InviteKeepsWellFormed | src/mocks/handlers.ts:154-159 | an invite keeps the store well formed |
| MockStoreProps.RevokeKeepsWellFormed | src/mocks/handlers.ts:175-177 | a revoke keeps the store well formed |
| MockStoreProps.CreatePromptKeepsWellFormed | src/mocks/handlers.ts:248-257 | a new prompt keeps the store well formed |
| MockStoreProps.AppendInactiveKeepsWellFormed | src/mocks/handlers.ts:253-257 | appending an inactive prompt whose id continues the numbering keeps the store well formed |
| MockStoreProps.OtherOpsKeepCore | src/mocks/handlers.ts:78-301 | the employee, question and settings handlers touch neither the sessions nor the prompts |
| MockStoreProps.ActivateKeepsWellFormed | src/mocks/handlers.ts:261-268 | an activation keeps the store well formed |
| MockStoreProps.ApplyKeepsWellFormed | src/mocks/handlers.ts:14-302 | every handler keeps the store well formed |
| MockStoreProps.RunKeepsWellFormed | src/mocks/handlers.ts:5-12 | any sequence of requests keeps the store well formed |
| MockStoreProps.SendContinuesNumbering | src/mocks/handlers.ts:39-47 | in a well-formed store the user message follows the last message's sequence and the reply follows it, so the session stays numbered 1..n+2 |
| MockStoreProps.SendIgnoresIdempotencyKey | src/mocks/handlers.ts:26 | two sends differing only in the idempotency key have the same effect and reply |
| MockStoreProps.RetryAppendsTwice | src/mocks/handlers.ts:51-54 | a retry with the same key appends a second pair: four new messages, the retried text among them |
| MockStoreProps.SendKeepsStatus | src/mocks/handlers.ts:51-54 | a send leaves the session's status and token as they were |
| MockStoreProps.ActivateLeavesOnlyTarget | src/mocks/handlers.ts:265-266 | after activation the target is the only active prompt of its type, and prompts of other types are unchanged |
| MockStoreProps.CreatePromptKeepsActive | src/mocks/handlers.ts:253-257 | a new prompt leaves every existing prompt as it was and is itself inactive |
| MockStoreProps.CreatePromptListedLast | src/mocks/handlers.ts:239-257 | after a creation, listing the type gives the earlier listing unchanged followed by the new prompt |
| MockStoreProps.InviteThenRevoke | src/mocks/handlers.ts:137-186 | with a fresh token, an invite makes its session reachable by token; revoking takes the sessions back to what they were and leaves the employee without an invite |
| MockStoreProps.TokenLookup | src/mocks/handlers.ts:16-21 | the token lookup answers with what the table holds under the token, 404 when nothing |
| MockStoreProps.InviteAppendsSession | src/mocks/handlers.ts:154-159 | a fresh token's invite appends its session last and records the token on the employee |
| MockStoreProps.RevokeDropsSession | src/mocks/handlers.ts:175-178 | revoking deletes the session of the employee's active invite and clears the invite |
| MockStoreProps.SecondInviteOrphansFirst | src/mocks/handlers.ts:145-176 | a second invite replaces the first on the employee, so a revoke afterwards removes only the second invite's session |
| MockStoreProps.EmployeeIdReusedAfterDelete | src/mocks/handlers.ts:81 | deleting employee "1" of the fixture and creating one gives id "2": the new record overwrites employee 2 and the list has two rows with id "2" |
| MockStoreProps.CreateAfterOneLeft | src/mocks/handlers.ts:81-102 | with one employee "2" left, a new employee takes id "2" |
| MockStoreProps.FixtureWithoutFirst | src/mocks/handlers.ts:121-127 | deleting employee "1" of the fixture leaves employee "2" alone in both the records and the list |
| MockStoreProps.FixtureListWithoutFirst | src/mocks/handlers.ts:125 | the list filter keeps only the second fixture row |
| MockStoreProps.ResetAfterPutRestoresDefault | src/mocks/handlers.ts:282-301 | whatever was saved, a reset brings a known key back to its default value |
| MockStoreProps.ResetRelabelsDatabaseDefault | src/mocks/handlers.ts:294-298 | resetting the untouched welcome message keeps its value but changes its source from "database" to "default" |
| MockStoreProps.PutSettingsIdempotent | src/mocks/handlers.ts:285-287 | saving the same values twice is the same as saving them once |
| MockRoutes.ResolveAt | src/mocks/handlers.ts:14-302 | the first handler, in declaration order, whose method and pattern accept the request answers it |
| MockRoutes.ResolveMiss | src/main.tsx:25 | a request no handler accepts is passed through to the network |
| MockRoutes.ResolveSound | src/mocks/handlers.ts:14-302 | conversely, no handler means no route accepts; a handler found belongs to an accepting route with none before it |
| MockRoutes.Resolve | src/main.tsx:25 | a request gets no handler iff no route accepts it (and goes to the network); a handler found is that of the first accepting route |
| MockRoutes.OneRoutePerHandler | src/mocks/handlers.ts:14-302 | no handler is registered twice in the route list |
| MockRoutes.Request | src/api/hooks/useEmployees.ts:8-66 | every hook's path has at least two segments; exactly the three interview calls avoid `/admin`; exactly the ten reads use GET |
| MockRoutes.InviteCreationMissesMock | src/api/hooks/useEmployees.ts:58 | as written, the invite hook's POST to `…/invites` matches no handler and leaves the mock |
| MockRoutes.SessionByTokenLands | src/api/hooks/useSession.ts:8 | the token lookup reaches the token handler |
| MockRoutes.SessionByIdPassesThrough | src/api/hooks/useSession.ts:17 | the poll by session id has no handler and goes to the network |
| MockRoutes.SendMessageLands | src/api/hooks/useSession.ts:28 | a send reaches the message handler |
| MockRoutes.ListEmployeesLands | src/api/hooks/useEmployees.ts:8 | the employee list reaches its handler |
| MockRoutes.GetEmployeeLands | src/api/hooks/useEmployees.ts:15 | an employee lookup reaches its handler |
| MockRoutes.CreateEmployeeLands | src/api/hooks/useEmployees.ts:23 | an employee creation reaches its handler |
| MockRoutes.UpdateEmployeeLands | src/api/hooks/useEmployees.ts:31 | an employee update reaches its handler |
| MockRoutes.DeleteEmployeeLands | src/api/hooks/useEmployees.ts:42 | an employee deletion reaches its handler |
| MockRoutes.EmployeeSessionsLands | src/api/hooks/useEmployees.ts:50 | an employee's sessions reach their handler |
| MockRoutes.RevokeInviteLands | src/api/hooks/useEmployees.ts:66 | the revoke reaches the invite-revoke handler |
| MockRoutes.AdminSessionLands | src/api/hooks/useAdminSession.ts:8 | an admin session lookup reaches its handler |
| MockRoutes.ReextractPassesThrough | src/api/hooks/useAdminSession.ts:16 | a re-extract has no handler and goes to the network |
| MockRoutes.ResummarizePassesThrough | src/api/hooks/useAdminSession.ts:24 | a re-summarize has no handler and goes to the network |
| MockRoutes.ListQuestionsLands | src/api/hooks/useQuestions.ts:8 | the question list reaches its handler |
| MockRoutes.CreateQuestionLands | src/api/hooks/useQuestions.ts:15 | a question creation reaches its handler |
| MockRoutes.UpdateQuestionLands | src/api/hooks/useQuestions.ts:23 | a question update reaches its handler |
| MockRoutes.DeleteQuestionLands | src/api/hooks/useQuestions.ts:31 | a question deletion reaches its handler |
| MockRoutes.ReorderQuestionsPassesThrough | src/api/hooks/useQuestions.ts:39 | a reorder has no handler and goes to the network |
| MockRoutes.ListPromptsLands | src/api/hooks/usePrompts.ts:8 | the prompt list reaches its handler |
| MockRoutes.CreatePromptLands | src/api/hooks/usePrompts.ts:15 | a prompt creation reaches its handler |
| MockRoutes.ActivatePromptLands | src/api/hooks/usePrompts.ts:23 | an activation reaches its handler |
| MockRoutes.BudgetLands | src/api/hooks/useBudget.ts:8 | the budget reaches its handler |
| MockRoutes.GetSettingsLands | src/api/hooks/useSettings.ts:10 | the settings reach their handler |
| MockRoutes.PutSettingsLands | src/api/hooks/useSettings.ts:15 | a settings save reaches its handler |
| MockRoutes.ResetSettingLands | src/api/hooks/useSettings.ts:20 | a reset reaches the settings reset handler |
| MockRoutes.OtherCallsLandAsIntended | src/mocks/handlers.ts:14-302 | every client call except the invite creation lands on its intended handler, or on the network where the mock has none |
| MockRoutes.RequestCorrected | src/mocks/handlers.ts:137 | the corrected requests differ from the written ones only in the invite creation, which goes to `…/invite` |
| MockRoutes.CorrectedInviteLands | src/mocks/handlers.ts:137 | sent to `…/invite`, the invite creation reaches the invite handler |
| MockRoutes.CorrectedCallsLandAsIntended | src/mocks/handlers.ts:14-302 | with the corrected path every client call lands where it is meant to |

## Left out

- React and react-query plumbing are left out: hook wiring, effect scheduling, query caching and invalidation. The poll query's `enabled` flag is a predicate of the engine state. Query refetches are the `Polled` and `Refetched` events.
- `fetch`, msw's `delay`, `localStorage`, `Date.now`/`new Date()`, `crypto.randomUUID` and `Math.random` are parameters: an outcome, a map, a clock value, a key or a token.
- Timestamps are milliseconds. ISO date strings are not formatted, and the several `Date.now()` calls in one handler are one clock value.
- `Number()` and `String()` are not computed. A setting value is given as the pair of what the two coercions return (`JsCore.Unknown`).
- Floating-point arithmetic is not modelled. Validator numbers are exact reals. Budget and cost displays are out.
- Labels, descriptions, placeholders and other presentation text are left out, except the texts the contracts compare.
- Prototype keys of plain objects and the integer-like-key ordering of JavaScript objects are left out. The tables assume ordinary string keys in insertion order.
- Presentation components, the admin CRUD pages, the dashboard and `activate-redesign.js` are left out. The last only rewrites a file to swap the redesign in; both variants are modelled.
- The settings page's loading and error views are left out.
- Route parameters containing '/' are left out. A path is given as its segments.
- Keys outside EmployeeUpdate/QuestionUpdate are left out, such as an `id` that the spread `{...record, ...body}` would let a body overwrite. The model merges only the declared update fields.
- The phase of the one-second interval is left out. A `TimeoutCheck` event may come at any time while polling.
- `trim`'s whitespace is a fixed set of code points (WhiteSpace and LineTerminator of the ECMAScript standard, section 12.2 and 12.3).
- SettingsConfig.Entry: the contract states only that each entry carries its key. The option lists, slider ranges and validators are stated by ProviderOptionsMatchValidator, ReasoningOptionMinimalRejected, SlidersMatchTemperature and FreeTextHasNoValidator.
- MessageOrder.SortBySequence: the comparator `a.sequence - b.sequence` is modelled as an exact comparison of integers. Sequence numbers that are not integers, and precision loss in the subtraction, are left out.

Behaviours of the code that the model keeps, although a reader might expect otherwise:
- The mock never reads the idempotency key.
- The optimistic sequence is the list length plus one.
- Poll results are applied whenever they arrive.
- Polling stays enabled after FINALIZED when the container was mounted on a processing session.
- A new employee's id can repeat one still in use after a delete.
- A second invite leaves the first invite's session behind.
- A reset relabels a default stored "database" as "default".
- Every invite session's greeting has the id "m1".
- An invite does not change the list row's status.

## Findings

| source | as written | input that shows it | evidently intended | confidence | as-written member | corrected member |
|---|---|---|---|---|---|---|
| src/api/hooks/useEmployees.ts:58 | the invite hook POSTs to `/admin/employees/<id>/invites`, but the mock serves `POST /api/admin/employees/:id/invite` (src/mocks/handlers.ts:137); with `onUnhandledRequest: 'bypass'` the request leaves the mock | any employee id, e.g. "1": `POST /api/admin/employees/1/invites` matches no handler | the hook posts to `/admin/employees/<id>/invite`, the path the revoke hook (line 66) and the handler use | high (not executed) | MockRoutes.InviteCreationMissesMock | MockRoutes.CorrectedCallsLandAsIntended |
