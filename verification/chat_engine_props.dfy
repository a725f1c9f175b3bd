/**
 * Properties of the chat container state machine: the absorbing timeout,
 * the strict 60-second bound, the gap left by `shouldPoll`, the invariant
 * tying the optimistic message to the request in flight, the draft's
 * restore-on-failure and persistence round trips, and what the list shows
 * while a reply is awaited.
 */
module ChatEngineProps {
  import opened JsCore
  import opened ApiTypes
  import opened ApiClient
  import opened ChatEngine
  import MessageOrder

  // ---------------------------------------------------------------------
  // Timeout
  // ---------------------------------------------------------------------

  /** Running two batches of events one after the other is running them together. */
  lemma {:induction false} RunAppend(e: Engine, a: seq<Event>, b: seq<Event>)
    ensures Run(e, a + b) == Run(Run(e, a), b)
    decreases |a|
  {
    if |a| > 0 {
      assert (a + b)[0] == a[0];
      assert (a + b)[1..] == a[1..] + b;
      RunAppend(Step(e, a[0]), a[1..], b);
    } else {
      assert a + b == b;
    }
  }

  lemma StepKeepsTimeout(e: Engine, ev: Event)
    requires e.timedOut
    ensures Step(e, ev).timedOut
  {
  }

  /** Once polling has timed out it stays timed out whatever happens next: the
      poll query stays disabled, the input stays hidden and the processing
      banner never returns. */
  lemma {:induction false} TimeoutIsAbsorbing(e: Engine, evs: seq<Event>)
    requires e.timedOut
    ensures var r := Run(e, evs);
      && r.timedOut
      && !PollEnabled(r)
      && !InputShown(r)
      && (View(r).ChatScreen? ==> View(r).timeoutBanner && !View(r).processingBanner && View(r).input.Hidden?)
    decreases |evs|
  {
    if |evs| > 0 {
      StepKeepsTimeout(e, evs[0]);
      TimeoutIsAbsorbing(Step(e, evs[0]), evs[1..]);
    }
  }

  /** The bound is strict: exactly 60000 ms after the recorded start the check
      does not fire, one millisecond later it does. */
  lemma TimeoutIsStrict(e: Engine, start: int)
    requires e.isPolling && !e.timedOut && e.pollingStart == Some(start) && start != 0
    ensures !Tick(e, start + PollingTimeoutMs).timedOut
    ensures Tick(e, start + PollingTimeoutMs + 1).timedOut
    ensures !Tick(e, start + PollingTimeoutMs + 1).isPolling
  {
  }

  /** A start time that is missing, or is 0 (falsy), never lets the check fire. */
  lemma UnrecordedStartNeverTimesOut(e: Engine, now: int)
    requires !Recorded(e.pollingStart)
    ensures Tick(e, now) == e
  {
  }

  /** Mounted while the backend processes, the container polls, and the first
      check more than a minute later shows the timeout banner instead of the
      input and disables the poll query. */
  lemma ProcessingMountTimesOut(variant: Variant, token: string, initial: Session,
                                storage: map<string, string>, t0: int, t1: int)
    requires IsProcessing(initial.status) && t0 != 0 && t1 > t0 + PollingTimeoutMs
    ensures var m := Mount(variant, token, initial, storage, t0);
      && PollEnabled(m)
      && var r := Tick(m, t1);
      && r.timedOut && !PollEnabled(r)
      && View(r) == ChatScreen(View(r).items, false, true, None, Hidden)
  {
  }

  // ---------------------------------------------------------------------
  // The polling gate after a terminal status
  // ---------------------------------------------------------------------

  /** A poll that brings FINALIZED or ERROR clears `isPolling`, yet the query stays
      enabled exactly when the container was given a processing session, because
      `shouldPoll` is computed from that session. */
  lemma TerminalPollLeavesShouldPoll(e: Engine, snap: Session, now: int)
    requires IsTerminal(snap.status) && snap.status != Working(e).status
    ensures var r := PollResult(e, snap, now);
      && !r.isPolling && r.pollingStart.None?
      && View(r) == FinalScreen(snap)
      && (PollEnabled(r) <==> ShouldPoll(e) && !e.timedOut)
  {
  }

  /** In particular, mounted in a processing status, the poll query keeps running
      after the final screen is shown. */
  lemma FinalizedWhileMountedProcessing(variant: Variant, token: string, initial: Session,
                                        storage: map<string, string>, t0: int, snap: Session, t1: int)
    requires IsProcessing(initial.status) && snap.status == Finalized
    ensures var r := PollResult(Mount(variant, token, initial, storage, t0), snap, t1);
      && View(r).FinalScreen? && !r.isPolling && PollEnabled(r)
  {
  }

  // ---------------------------------------------------------------------
  // The optimistic message and the request in flight
  // ---------------------------------------------------------------------

  /** The legacy container never has an optimistic message; in the redesign there is
      one exactly while a request is in flight, and it is the user's message with the
      text being sent. */
  predicate Inv(e: Engine) {
    && (e.variant.Legacy? ==> e.optimistic.None?)
    && (e.variant.Redesign? ==> (e.optimistic.Some? <==> e.pending.Some?))
    && (e.optimistic.Some? ==>
          e.pending.Some? && e.optimistic.value.content == e.pending.value.content
          && e.optimistic.value.role == User)
  }

  lemma MountEstablishesInv(variant: Variant, token: string, initial: Session,
                            storage: map<string, string>, now: int)
    ensures Inv(Mount(variant, token, initial, storage, now))
  {
  }

  lemma StepKeepsInv(e: Engine, ev: Event)
    requires Inv(e)
    ensures Inv(Step(e, ev))
  {
    match ev
    case Submitted(key, now) =>
      var sent := InputSends(e);
      if InputShown(e) && sent.Some? {
        assert Step(e, ev) == SendStart(e, sent.value, key, now);
      }
    case _ =>
  }

  lemma {:induction false} RunKeepsInv(e: Engine, evs: seq<Event>)
    requires Inv(e)
    ensures Inv(Run(e, evs))
    decreases |evs|
  {
    if |evs| > 0 {
      StepKeepsInv(e, evs[0]);
      RunKeepsInv(Step(e, evs[0]), evs[1..]);
    }
  }

  /** While the redesign awaits a reply, the list shows every message, then the
      optimistic one, then the typing indicator: one bubble more than the session
      holds. */
  lemma RedesignPendingView(e: Engine)
    requires Inv(e) && e.variant.Redesign? && e.pending.Some?
    requires View(e).ChatScreen?
    ensures var items := View(e).items;
      && items == MessageOrder.Bubbles(Working(e).messages) + [MessageOrder.Bubble(e.optimistic.value)] + [MessageOrder.Typing]
      && MessageOrder.BubbleCount(items) == |Working(e).messages| + 1
  {
    MessageOrder.RedesignBubbleCount(Working(e).messages, e.optimistic, true);
  }

  /** While the legacy container awaits a reply, the list adds only the typing
      indicator: the bubbles are exactly the session's messages, sorted. */
  lemma LegacyPendingView(e: Engine)
    requires Inv(e) && e.variant.Legacy? && e.pending.Some?
    requires View(e).ChatScreen?
    ensures var items := View(e).items; var n := |Working(e).messages|;
      && |items| == n + 1 && items[n] == MessageOrder.Typing
      && MessageOrder.SortedBySequence(seq(n, i requires 0 <= i < n => items[i].message))
      && multiset(seq(n, i requires 0 <= i < n => items[i].message)) == multiset(Working(e).messages)
  {
  }

  /** The optimistic sequence number is the list length plus one, not the largest
      sequence plus one: after a gap it repeats a number already in use. */
  lemma OptimisticSequenceCanRepeat(e: Engine, content: string, now: int)
    requires e.variant.Redesign?
    requires |Working(e).messages| == 2
    requires Working(e).messages[0].sequence == 2 && Working(e).messages[1].sequence == 3
    ensures var o := SendStart(e, content, "k", now).optimistic.value;
      o.sequence == Working(e).messages[1].sequence
  {
  }

  // ---------------------------------------------------------------------
  // Send round trips
  // ---------------------------------------------------------------------

  /** A redesign send that fails puts the sent (trimmed) text back in the draft,
      removes the optimistic message and shows the error, leaving the session as
      it was; the stored copy stays removed until the draft's quiet period. */
  lemma RedesignFailureRestoresDraft(e: Engine, key: string, t0: int, err: ApiError, t1: int)
    requires Inv(e) && e.variant.Redesign?
    requires InputShown(e) && InputSends(e).Some?
    ensures var s := Submit(e, key, t0);
      && s.optimistic.Some? && s.draft == ""
      && var f := SendFailure(s, err, t1);
      && f.draft == Trim(e.draft)
      && f.optimistic.None? && f.pending.None?
      && f.error == Some(GetErrorMessage(err))
      && Working(f) == Working(e)
      && f.storage == e.storage - {DraftKey(e.token)}
  {
  }

  /** The text put back after a failure is stored again once it has been quiet for
      two seconds. */
  lemma RestoredDraftIsStoredAgain(e: Engine, key: string, t0: int, err: ApiError, t1: int, t2: int)
    requires Inv(e) && e.variant.Redesign?
    requires InputShown(e) && InputSends(e).Some?
    requires t2 >= t1 + DraftSaveDelayMs
    ensures var f := SendFailure(Submit(e, key, t0), err, t1);
      DraftTimer(f, t2).storage == e.storage[DraftKey(e.token) := Trim(e.draft)]
  {
    var s := Submit(e, key, t0);
    assert s.draft == "";
    var f := SendFailure(s, err, t1);
    assert f.draftChangedAt == t1;
    assert |f.draft| > 0;
  }

  /** A legacy send that fails leaves the draft and its stored copy exactly as they
      were (untrimmed) and only sets the error. */
  lemma LegacyFailureKeepsDraft(e: Engine, key: string, t0: int, err: ApiError, t1: int)
    requires e.variant.Legacy?
    requires InputShown(e) && InputSends(e).Some?
    ensures var f := SendFailure(Submit(e, key, t0), err, t1);
      && f.draft == e.draft && f.storage == e.storage
      && f.error == Some(GetErrorMessage(err)) && f.pending.None?
  {
  }

  /** A legacy send that succeeds clears the draft and its stored copy; the
      redesign had already cleared both when the request went out. */
  lemma SuccessClearsDraft(e: Engine, key: string, t0: int, resp: SendMessageResponse, t1: int)
    requires InputShown(e) && InputSends(e).Some?
    ensures var r := SendSuccess(Submit(e, key, t0), resp, t1);
      && r.draft == "" && DraftKey(e.token) !in r.storage && r.pending.None?
  {
  }

  /** A reply that completes the interview turns polling on from the reply's time,
      even when an earlier start was recorded; unless polling already timed out,
      the query runs. */
  lemma CompleteReplyRestartsPolling(e: Engine, resp: SendMessageResponse, now: int)
    requires e.pending.Some? && resp.isComplete && !e.timedOut
    ensures var r := SendSuccess(e, resp, now);
      r.isPolling && r.pollingStart == Some(now) && PollEnabled(r)
  {
  }

  // ---------------------------------------------------------------------
  // Draft persistence
  // ---------------------------------------------------------------------

  /** After the quiet period the draft survives a remount: a container mounted
      later for the same token starts with the same draft (empty stays empty). */
  lemma DraftSurvivesRemount(e: Engine, now: int, variant: Variant, initial: Session, t: int)
    requires now - e.draftChangedAt >= DraftSaveDelayMs
    ensures Mount(variant, e.token, initial, DraftTimer(e, now).storage, t).draft == e.draft
  {
  }

  /** Before the quiet period nothing is written. */
  lemma DraftNotSavedEarly(e: Engine, now: int)
    requires now - e.draftChangedAt < DraftSaveDelayMs
    ensures DraftTimer(e, now).storage == e.storage
  {
  }
}
