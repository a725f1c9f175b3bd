/**
 * The two message-input components of the interview widget: which key
 * presses and clicks send, what is sent, and when the send button is
 * disabled. Both send the trimmed text; only the legacy input bounds its
 * length.
 */
module ChatInput {
  import opened JsCore

  /** The legacy input's `maxLength` when the caller gives none. */
  const DefaultMaxLength: int := 2000

  /** A key-down event: the key's name and whether Shift was held. */
  datatype KeyPress = KeyPress(key: string, shift: bool)

  predicate IsPlainEnter(k: KeyPress) {
    k.key == "Enter" && !k.shift
  }

  /** The text has at least one character that `trim` keeps. */
  predicate HasContent(value: string) {
    exists k :: 0 <= k < |value| && !IsWhitespace(value[k])
  }

  lemma HasContentIffTrimmed(value: string)
    ensures HasContent(value) <==> |Trim(value)| > 0
  {
    TrimEmptyIff(value);
  }

  // ---------------------------------------------------------------------
  // Legacy input
  // ---------------------------------------------------------------------

  /** `canSend`: something to send, the raw (untrimmed) text within `maxLength`
      UTF-16 units, and the input not disabled. */
  function CanSend(value: string, disabled: bool, maxLength: int): (ok: bool)
    ensures ok <==> HasContent(value) && Utf16Length(value) <= maxLength && !disabled
  {
    HasContentIffTrimmed(value);
    |Trim(value)| > 0 && Utf16Length(value) <= maxLength && !disabled
  }

  /** The send button: sends `value.trim()` when `canSend`. */
  function OnButton(value: string, disabled: bool, maxLength: int): (sent: Option<string>)
    ensures sent.Some? <==> CanSend(value, disabled, maxLength)
    ensures sent.Some? ==> sent.value == Trim(value) && |sent.value| > 0
  {
    if CanSend(value, disabled, maxLength) then Some(Trim(value)) else None
  }

  /** Key-down in the text area: plain Enter sends exactly what the button would;
      Shift+Enter and every other key never send. */
  function OnKeyDown(value: string, disabled: bool, maxLength: int, k: KeyPress): (sent: Option<string>)
    ensures k.shift ==> sent.None?
    ensures sent.Some? <==> IsPlainEnter(k) && CanSend(value, disabled, maxLength)
    ensures IsPlainEnter(k) ==> sent == OnButton(value, disabled, maxLength)
  {
    if IsPlainEnter(k) && CanSend(value, disabled, maxLength) then Some(Trim(value)) else None
  }

  /** The button is disabled exactly when it would not send. */
  function ButtonDisabled(value: string, disabled: bool, maxLength: int): (off: bool)
    ensures off <==> OnButton(value, disabled, maxLength).None?
  {
    !CanSend(value, disabled, maxLength)
  }

  /** The "n/max" counter turns red when the raw length exceeds the bound. */
  function CounterRed(value: string, maxLength: int): bool {
    Utf16Length(value) > maxLength
  }

  /** A red counter always comes with a disabled button. */
  lemma RedCounterDisablesButton(value: string, disabled: bool, maxLength: int)
    requires CounterRed(value, maxLength)
    ensures ButtonDisabled(value, disabled, maxLength)
  {
  }

  /** The bound applies to the untrimmed text: 2000 letters followed by one space
      cannot be sent, although what would be sent is within the bound. */
  lemma TrailingSpaceExceedsBound()
    ensures var v := seq(2000, _ => 'a') + " ";
      && Utf16Length(Trim(v)) <= DefaultMaxLength
      && !CanSend(v, false, DefaultMaxLength)
  {
    var a := seq(2000, _ => 'a');
    var v := a + " ";
    assert LeadingSpace(v) == 0;
    assert v[..|v| - 1] == a;
    assert ContentEnd(a) == |a|;
    assert ContentEnd(v) == |a|;
    assert v[0..|a|] == a;
    assert Trim(v) == a;
    Utf16LengthOfBmp(v);
  }

  // ---------------------------------------------------------------------
  // Redesigned input
  // ---------------------------------------------------------------------

  /** `handleSubmit`: sends `value.trim()` when it is non-empty and the input is
      enabled; no length bound is applied. */
  function Submit(value: string, disabled: bool): (sent: Option<string>)
    ensures sent.Some? <==> HasContent(value) && !disabled
    ensures sent.Some? ==> sent.value == Trim(value) && |sent.value| > 0
  {
    HasContentIffTrimmed(value);
    if |Trim(value)| > 0 && !disabled then Some(Trim(value)) else None
  }

  /** Plain Enter goes through the same guard as the form submit. */
  function OnKeyDownRedesign(value: string, disabled: bool, k: KeyPress): (sent: Option<string>)
    ensures !IsPlainEnter(k) ==> sent.None?
    ensures IsPlainEnter(k) ==> sent == Submit(value, disabled)
  {
    if IsPlainEnter(k) then Submit(value, disabled) else None
  }

  /** The send button is disabled exactly when a submit would not send. */
  function ButtonDisabledRedesign(value: string, disabled: bool): (off: bool)
    ensures off <==> Submit(value, disabled).None?
  {
    HasContentIffTrimmed(value);
    |Trim(value)| == 0 || disabled
  }

  /** The two inputs agree except on the length bound: whatever the legacy input
      sends, the redesigned one sends too, and the converse holds within the bound. */
  lemma InputsDifferOnlyInLength(value: string, disabled: bool, maxLength: int)
    ensures OnButton(value, disabled, maxLength).Some? ==> Submit(value, disabled) == OnButton(value, disabled, maxLength)
    ensures Utf16Length(value) <= maxLength ==> Submit(value, disabled) == OnButton(value, disabled, maxLength)
  {
  }

  /** A text longer than the legacy bound is still sent by the redesigned input. */
  lemma RedesignHasNoLengthBound()
    ensures var v := seq(2001, _ => 'a');
      && Utf16Length(v) > DefaultMaxLength
      && Submit(v, false) == Some(v)
      && OnButton(v, false, DefaultMaxLength).None?
  {
    var v := seq(2001, _ => 'a');
    assert !IsWhitespace(v[0]);
    assert LeadingSpace(v) == 0;
    assert ContentEnd(v) == |v|;
    assert v[0..|v|] == v;
    assert Trim(v) == v;
    assert HasContent(v);
    Utf16LengthOfBmp(v);
  }
}
