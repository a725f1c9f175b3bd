/**
 * The interview chat container as a state machine. Both variants (the
 * legacy container and the redesign) hold the same state: the draft, the
 * error text, whether polling was requested, whether it timed out, the
 * polling start time, the optimistic message (redesign only), the request in
 * flight, and the working session (the polled snapshot, else the initial
 * one). Each React effect and handler becomes a pure step over an integer
 * millisecond clock; `localStorage` is a map and the idempotency key is a
 * parameter supplied fresh by the caller.
 */
module ChatEngine {
  import opened JsCore
  import opened ApiTypes
  import opened ApiClient
  import ChatInput
  import MessageOrder

  datatype Variant = Legacy | Redesign

  const DraftKeyPrefix: string := "chat_draft_"
  /** How long polling may run before the timeout banner replaces it. */
  const PollingTimeoutMs: int := 60000
  /** The poll query's `refetchInterval`. */
  const PollIntervalMs: int := 2000
  /** The period of the timeout check. */
  const TimeoutCheckMs: int := 1000
  /** The quiet period after which the draft is written to storage. */
  const DraftSaveDelayMs: int := 2000

  datatype Engine = Engine(
    variant: Variant,
    token: string,
    /** the `session` prop, as last fetched by the page */
    initial: Session,
    /** the latest result of the poll query */
    polled: Option<Session>,
    draft: string,
    /** when `draft` last changed (the save timer restarts then) */
    draftChangedAt: int,
    error: Option<string>,
    isPolling: bool,
    timedOut: bool,
    /** the `pollingStartTime` ref */
    pollingStart: Option<int>,
    optimistic: Option<Message>,
    /** the mutation in flight (`sendMessage.isPending`) */
    pending: Option<SendMessageRequest>,
    storage: map<string, string>)

  function DraftKey(token: string): string {
    DraftKeyPrefix + token
  }

  /** `polledSession || initialSession`. */
  function Working(e: Engine): (s: Session)
    ensures e.polled.Some? ==> s == e.polled.value
    ensures e.polled.None? ==> s == e.initial
  {
    if e.polled.Some? then e.polled.value else e.initial
  }

  /** `shouldPoll`: fixed by the status of the session the container was given. */
  predicate ShouldPoll(e: Engine)
    ensures ShouldPoll(e) <==> e.initial.status in {Completed, Extracting, Summarizing}
  {
    IsProcessing(e.initial.status)
  }

  /** The poll query's `enabled` option. */
  predicate PollEnabled(e: Engine)
    ensures PollEnabled(e) ==> !e.timedOut
    ensures !e.timedOut && IsProcessing(e.initial.status) ==> PollEnabled(e)
  {
    (e.isPolling || ShouldPoll(e)) && !e.timedOut
  }

  /** `pollingStartTime.current` is truthy: present and not 0. */
  predicate Recorded(start: Option<int>) {
    start.Some? && start.value != 0
  }

  /** Whether the message input is rendered: not on the final screen, not while the
      processing banner shows, not after the timeout. */
  predicate InputShown(e: Engine)
    ensures InputShown(e) <==>
      Working(e).status !in {Completed, Extracting, Summarizing, Finalized, Error} && !e.timedOut
  {
    var st := Working(e).status;
    !IsTerminal(st) && !(IsProcessing(st) && !e.timedOut) && !e.timedOut
  }

  /** `setDraft(value)`: the save timer restarts only when the value changes. */
  function SetDraft(e: Engine, value: string, now: int): (r: Engine)
    ensures r.draft == value
    ensures r == e.(draft := value, draftChangedAt := r.draftChangedAt)
    ensures e.draft != value ==> r.draftChangedAt == now
    ensures e.draft == value ==> r == e
  {
    if value == e.draft then e else e.(draft := value, draftChangedAt := now)
  }

  // ---------------------------------------------------------------------
  // Effects
  // ---------------------------------------------------------------------

  /** The effect on `session.status`: a processing status requests polling and
      records the start time unless one is recorded; FINALIZED or ERROR cancels
      polling and forgets the start time; other statuses change nothing. */
  function ObserveStatus(e: Engine, now: int): (r: Engine)
    ensures r == e.(isPolling := r.isPolling, pollingStart := r.pollingStart)
    ensures IsProcessing(Working(e).status) ==>
      && r.isPolling
      && (Recorded(e.pollingStart) ==> r.pollingStart == e.pollingStart)
      && (!Recorded(e.pollingStart) ==> r.pollingStart == Some(now))
    ensures IsTerminal(Working(e).status) ==> !r.isPolling && r.pollingStart.None?
    ensures !IsProcessing(Working(e).status) && !IsTerminal(Working(e).status) ==> r == e
  {
    var st := Working(e).status;
    if IsProcessing(st) then
      e.(isPolling := true, pollingStart := if Recorded(e.pollingStart) then e.pollingStart else Some(now))
    else if IsTerminal(st) then
      e.(isPolling := false, pollingStart := None)
    else e
  }

  /** A re-render from `e` to `next`: the status effect runs when the working
      session's status differs from the previous render's. */
  function Rerender(e: Engine, next: Engine, now: int): (r: Engine)
    ensures Working(next).status == Working(e).status ==> r == next
    ensures Working(next).status != Working(e).status ==> r == ObserveStatus(next, now)
  {
    if Working(next).status != Working(e).status then ObserveStatus(next, now) else next
  }

  /** Mounting the container: the stored draft for the token is loaded when it is
      non-empty, and the status effect runs on the initial session. */
  function Mount(variant: Variant, token: string, initial: Session, storage: map<string, string>, now: int): (e: Engine)
    ensures e.draft == (if DraftKey(token) in storage then storage[DraftKey(token)] else "")
    ensures e.storage == storage && e.initial == initial && e.polled.None?
    ensures e.isPolling <==> IsProcessing(initial.status)
    ensures !e.timedOut && e.error.None? && e.optimistic.None? && e.pending.None?
    ensures PollEnabled(e) <==> IsProcessing(initial.status)
  {
    var key := DraftKey(token);
    var saved := if key in storage && storage[key] != "" then storage[key] else "";
    var base := Engine(variant, token, initial, None, saved, now, None, false, false, None, None, None, storage);
    ObserveStatus(base, now)
  }

  /** The one-second timeout check. The interval only runs while polling and not
      timed out; it fires once more than 60000 ms have passed since a recorded
      start, and then stops polling for good. */
  function Tick(e: Engine, now: int): (r: Engine)
    ensures r.timedOut <==>
      e.timedOut || (e.isPolling && Recorded(e.pollingStart) && now - e.pollingStart.value > PollingTimeoutMs)
    ensures r.timedOut != e.timedOut ==> r == e.(timedOut := true, isPolling := false)
    ensures r.timedOut == e.timedOut ==> r == e
  {
    if e.isPolling && !e.timedOut && Recorded(e.pollingStart) && now - e.pollingStart.value > PollingTimeoutMs
    then e.(timedOut := true, isPolling := false)
    else e
  }

  /** A poll result replaces the polled snapshot; it is applied whenever it
      arrives, also after the query was disabled. */
  function PollResult(e: Engine, snap: Session, now: int): (r: Engine)
    ensures Working(r) == snap
    ensures r.timedOut == e.timedOut && r.draft == e.draft && r.pending == e.pending && r.error == e.error
    ensures snap.status == Working(e).status ==> r == e.(polled := Some(snap))
  {
    Rerender(e, e.(polled := Some(snap)), now)
  }

  /** The page refetched `['session', token]` (a successful send invalidates it),
      so the container receives a new `session` prop. */
  function Refresh(e: Engine, snap: Session, now: int): (r: Engine)
    ensures r.initial == snap && r.polled == e.polled
    ensures e.polled.Some? ==> r == e.(initial := snap)
    ensures r.timedOut == e.timedOut && r.draft == e.draft && r.pending == e.pending
  {
    Rerender(e, e.(initial := snap), now)
  }

  /** A change in the text area; the area exists and is enabled only while the
      input is shown and nothing is in flight. */
  function Edit(e: Engine, value: string, now: int): (r: Engine)
    ensures InputShown(e) && e.pending.None? ==> r == SetDraft(e, value, now)
    ensures !(InputShown(e) && e.pending.None?) ==> r == e
  {
    if InputShown(e) && e.pending.None? then SetDraft(e, value, now) else e
  }

  /** The save timer, 2000 ms after the draft last changed: a non-empty draft is
      stored under the token's key, an empty one removes the key. */
  function DraftTimer(e: Engine, now: int): (r: Engine)
    ensures now - e.draftChangedAt < DraftSaveDelayMs ==> r == e
    ensures now - e.draftChangedAt >= DraftSaveDelayMs ==>
      && r == e.(storage := r.storage)
      && (e.draft != "" ==> r.storage == e.storage[DraftKey(e.token) := e.draft])
      && (e.draft == "" ==> r.storage == e.storage - {DraftKey(e.token)})
  {
    if now - e.draftChangedAt >= DraftSaveDelayMs then
      var key := DraftKey(e.token);
      e.(storage := if e.draft != "" then e.storage[key := e.draft] else e.storage - {key})
    else e
  }

  // ---------------------------------------------------------------------
  // Sending
  // ---------------------------------------------------------------------

  /** The redesign's optimistic message for `content` sent at `now`. */
  function TempMessage(e: Engine, content: string, now: int): (m: Message)
    ensures m.role == User && m.content == content
    ensures m.sequence == |Working(e).messages| + 1
    ensures |m.id| > 5 && m.id[..5] == "temp-"
  {
    Message("temp-" + IntToString(now), User, content, |Working(e).messages| + 1, now)
  }

  /** `handleSend(content)` up to the request: the error is cleared and the
      request goes out with the fresh key. The redesign also shows the optimistic
      message and empties the draft and its stored copy; the legacy container
      leaves both as they are until the reply. */
  function SendStart(e: Engine, content: string, key: string, now: int): (r: Engine)
    ensures r.error.None? && r.pending == Some(SendMessageRequest(content, key))
    ensures r.isPolling == e.isPolling && r.timedOut == e.timedOut && r.pollingStart == e.pollingStart
    ensures r.initial == e.initial && r.polled == e.polled
    ensures e.variant.Redesign? ==>
      && r.optimistic == Some(TempMessage(e, content, now))
      && r.draft == "" && r.storage == e.storage - {DraftKey(e.token)}
    ensures e.variant.Legacy? ==> r == e.(error := None, pending := r.pending)
  {
    var req := SendMessageRequest(content, key);
    if e.variant.Redesign? then
      var e1 := e.(error := None, optimistic := Some(TempMessage(e, content, now)),
                   storage := e.storage - {DraftKey(e.token)}, pending := Some(req));
      SetDraft(e1, "", now)
    else e.(error := None, pending := Some(req))
  }

  /** What the input sends: the legacy input with its default bound, or the
      redesigned one; in both, pressing Enter sends what the button would. */
  function InputSends(e: Engine): (sent: Option<string>)
    ensures sent.Some? ==> sent.value == Trim(e.draft) && |sent.value| > 0
    ensures sent.Some? ==> e.pending.None?
    ensures e.variant.Redesign? ==> (sent.Some? <==> ChatInput.HasContent(e.draft) && e.pending.None?)
  {
    if e.variant.Legacy? then ChatInput.OnButton(e.draft, e.pending.Some?, ChatInput.DefaultMaxLength)
    else ChatInput.Submit(e.draft, e.pending.Some?)
  }

  /** A submit from the input: nothing happens unless the input is shown and its
      guard lets the draft through. */
  function Submit(e: Engine, key: string, now: int): (r: Engine)
    ensures !InputShown(e) || InputSends(e).None? ==> r == e
    ensures InputShown(e) && InputSends(e).Some? ==>
      r == SendStart(e, Trim(e.draft), key, now) && r.pending.Some?
  {
    var sent := InputSends(e);
    if InputShown(e) && sent.Some? then SendStart(e, sent.value, key, now) else e
  }

  /** The reply arrived. The redesign drops the optimistic message; the legacy
      container clears the draft and its stored copy. A reply that completes the
      interview restarts polling from now, whatever start was recorded. */
  function SendSuccess(e: Engine, resp: SendMessageResponse, now: int): (r: Engine)
    ensures e.pending.None? ==> r == e
    ensures e.pending.Some? ==>
      && r.pending.None? && r.error == e.error && r.timedOut == e.timedOut
      && r.optimistic == (if e.variant.Redesign? then None else e.optimistic)
      && (resp.isComplete ==> r.isPolling && r.pollingStart == Some(now))
      && (!resp.isComplete ==> r.isPolling == e.isPolling && r.pollingStart == e.pollingStart)
    ensures e.pending.Some? && e.variant.Legacy? ==>
      r.draft == "" && r.storage == e.storage - {DraftKey(e.token)}
    ensures e.pending.Some? && e.variant.Redesign? ==>
      r.draft == e.draft && r.storage == e.storage
  {
    if e.pending.None? then e
    else
      var e1 := e.(pending := None);
      var e2 := if e.variant.Redesign? then e1.(optimistic := None)
                else SetDraft(e1.(storage := e1.storage - {DraftKey(e.token)}), "", now);
      if resp.isComplete then e2.(isPolling := true, pollingStart := Some(now)) else e2
  }

  /** The request failed with `err`. Both variants show `getErrorMessage(err)`; the
      redesign also drops the optimistic message and puts the sent text back in the
      draft. Polling state and storage are untouched. */
  function SendFailure(e: Engine, err: ApiError, now: int): (r: Engine)
    ensures e.pending.None? ==> r == e
    ensures e.pending.Some? ==>
      && r.pending.None? && r.error == Some(GetErrorMessage(err))
      && r.optimistic == (if e.variant.Redesign? then None else e.optimistic)
      && r.isPolling == e.isPolling && r.timedOut == e.timedOut && r.pollingStart == e.pollingStart
      && r.storage == e.storage
    ensures e.pending.Some? && e.variant.Redesign? ==> r.draft == e.pending.value.content
    ensures e.pending.Some? && e.variant.Legacy? ==> r == e.(pending := None, error := r.error)
  {
    if e.pending.None? then e
    else
      var msg := GetErrorMessage(err);
      if e.variant.Redesign? then
        SetDraft(e.(pending := None, optimistic := None, error := Some(msg)), e.pending.value.content, now)
      else e.(pending := None, error := Some(msg))
  }

  // ---------------------------------------------------------------------
  // Events and runs
  // ---------------------------------------------------------------------

  datatype Event =
    | TimeoutCheck(now: int)
    | Polled(snap: Session, now: int)
    | Refetched(snap: Session, now: int)
    | Typed(value: string, now: int)
    | DraftQuiet(now: int)
    | Submitted(key: string, now: int)
    | Replied(resp: SendMessageResponse, now: int)
    | Failed(err: ApiError, now: int)

  /** One event. No event changes the variant or the token; only a refetch
      replaces the session prop, and only a poll result the polled snapshot. */
  function Step(e: Engine, ev: Event): (r: Engine)
    ensures r.variant == e.variant && r.token == e.token
    ensures !ev.Refetched? ==> r.initial == e.initial
    ensures !ev.Polled? ==> r.polled == e.polled
  {
    match ev
    case TimeoutCheck(now) => Tick(e, now)
    case Polled(snap, now) => PollResult(e, snap, now)
    case Refetched(snap, now) => Refresh(e, snap, now)
    case Typed(value, now) => Edit(e, value, now)
    case DraftQuiet(now) => DraftTimer(e, now)
    case Submitted(key, now) => Submit(e, key, now)
    case Replied(resp, now) => SendSuccess(e, resp, now)
    case Failed(err, now) => SendFailure(e, err, now)
  }

  /** A sequence of events, in order. */
  function Run(e: Engine, evs: seq<Event>): (r: Engine)
    ensures r.variant == e.variant && r.token == e.token
    ensures (forall i :: 0 <= i < |evs| ==> !evs[i].Refetched?) ==> r.initial == e.initial
    ensures (forall i :: 0 <= i < |evs| ==> !evs[i].Polled?) ==> r.polled == e.polled
    decreases |evs|
  {
    if |evs| == 0 then e else Run(Step(e, evs[0]), evs[1..])
  }

  // ---------------------------------------------------------------------
  // The rendered view
  // ---------------------------------------------------------------------

  datatype InputView = Hidden | Shown(value: string, disabled: bool)

  datatype ChatView =
    | FinalScreen(session: Session)
    | ChatScreen(items: seq<MessageOrder.Item>, processingBanner: bool, timeoutBanner: bool,
                 errorText: Option<string>, input: InputView)

  /** What the container renders. */
  function View(e: Engine): (v: ChatView)
    ensures v.FinalScreen? <==> IsTerminal(Working(e).status)
    ensures v.FinalScreen? ==> v.session == Working(e)
    ensures v.ChatScreen? ==>
      && (v.processingBanner <==> IsProcessing(Working(e).status) && !e.timedOut)
      && (v.timeoutBanner <==> e.timedOut)
      && (v.input.Shown? <==> InputShown(e))
      && (v.input.Shown? ==> v.input.value == e.draft && (v.input.disabled <==> e.pending.Some?))
      && (v.errorText.Some? <==> e.error.Some? && e.error.value != "")
      && !(v.input.Shown? && (v.processingBanner || v.timeoutBanner))
    // the legacy list: the session's messages sorted by sequence, then the typing indicator
    ensures v.ChatScreen? && e.variant.Legacy? ==>
      var n := |Working(e).messages|;
      && |v.items| == n + (if e.pending.Some? then 1 else 0)
      && (forall i :: 0 <= i < n ==> v.items[i].Bubble?)
      && MessageOrder.SortedBySequence(seq(n, i requires 0 <= i < n => v.items[i].message))
      && multiset(seq(n, i requires 0 <= i < n => v.items[i].message)) == multiset(Working(e).messages)
    // the redesigned list: the messages in array order, the optimistic one, then typing
    ensures v.ChatScreen? && e.variant.Redesign? ==>
      v.items == MessageOrder.RenderRedesign(Working(e).messages, e.optimistic, e.pending.Some?)
  {
    var s := Working(e);
    if IsTerminal(s.status) then FinalScreen(s)
    else
      var processing := IsProcessing(s.status) && !e.timedOut;
      var items := if e.variant.Legacy? then MessageOrder.RenderLegacy(s.messages, e.pending.Some?)
                   else MessageOrder.RenderRedesign(s.messages, e.optimistic, e.pending.Some?);
      var errorText := if e.error.Some? && e.error.value != "" then e.error else None;
      var input := if !processing && !e.timedOut then Shown(e.draft, e.pending.Some?) else Hidden;
      ChatScreen(items, processing, e.timedOut, errorText, input)
  }
}
