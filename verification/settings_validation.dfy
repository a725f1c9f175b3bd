/**
 * The admin settings validators. Each returns None (null) when the value is
 * accepted and its one fixed message otherwise. The numeric validators see
 * the value through `Number(value)`, the enumerations through
 * `String(value)`.
 */
module SettingsValidation {
  import opened JsCore

  const TemperatureMessage: string := "Значение должно быть от 0.0 до 1.0"
  const PositiveIntMessage: string := "Значение должно быть положительным целым числом"
  const ReasoningEffortMessage: string := "Допустимые значения: low, medium, high"
  const ProviderMessage: string := "Допустимые значения: openai, anthropic, mock"

  /** `Number.isInteger`: finite with no fractional part. */
  predicate IsInteger(n: Num) {
    n.Finite? && n.r.Floor as real == n.r
  }

  /** `validateTemperature`: a number in [0, 1], both bounds included. NaN fails the
      `isNaN` test, and the infinities fall outside the range. */
  function ValidateTemperature(n: Num): (r: Option<string>)
    ensures r.None? <==> n.Finite? && 0.0 <= n.r <= 1.0
    ensures r.Some? ==> r.value == TemperatureMessage
  {
    match n
    case NaN => Some(TemperatureMessage)
    case Infinity(_) => Some(TemperatureMessage)
    case Finite(x) => if x < 0.0 || x > 1.0 then Some(TemperatureMessage) else None
  }

  /** `validatePositiveInt`: an integer greater than 0. */
  function ValidatePositiveInt(n: Num): (r: Option<string>)
    ensures r.None? <==> IsInteger(n) && n.r > 0.0
    ensures r.Some? ==> r.value == PositiveIntMessage
  {
    match n
    case NaN => Some(PositiveIntMessage)
    case Infinity(_) => Some(PositiveIntMessage)
    case Finite(x) => if x.Floor as real != x || x <= 0.0 then Some(PositiveIntMessage) else None
  }

  const ReasoningEfforts: seq<string> := ["low", "medium", "high"]
  const Providers: seq<string> := ["openai", "anthropic", "mock"]

  /** `validateReasoningEffort`: exactly "low", "medium" or "high". */
  function ValidateReasoningEffort(s: string): (r: Option<string>)
    ensures r.None? <==> s == "low" || s == "medium" || s == "high"
    ensures r.Some? ==> r.value == ReasoningEffortMessage
  {
    if s in ReasoningEfforts then None else Some(ReasoningEffortMessage)
  }

  /** `validateProvider`: exactly "openai", "anthropic" or "mock". */
  function ValidateProvider(s: string): (r: Option<string>)
    ensures r.None? <==> s == "openai" || s == "anthropic" || s == "mock"
    ensures r.Some? ==> r.value == ProviderMessage
  {
    if s in Providers then None else Some(ProviderMessage)
  }

  datatype Validator = Temperature | PositiveInt | ReasoningEffort | Provider

  /** Runs a validator on an `unknown` value, through the coercion it applies. */
  function Apply(v: Validator, u: Unknown): (r: Option<string>)
    ensures r.Some? ==> r.value == Message(v)
  {
    match v
    case Temperature => ValidateTemperature(u.asNumber)
    case PositiveInt => ValidatePositiveInt(u.asNumber)
    case ReasoningEffort => ValidateReasoningEffort(u.asString)
    case Provider => ValidateProvider(u.asString)
  }

  function Message(v: Validator): string {
    match v
    case Temperature => TemperatureMessage
    case PositiveInt => PositiveIntMessage
    case ReasoningEffort => ReasoningEffortMessage
    case Provider => ProviderMessage
  }

  /** The temperature bounds are inclusive; NaN and the infinities are rejected. */
  lemma TemperatureBounds()
    ensures ValidateTemperature(Finite(0.0)).None? && ValidateTemperature(Finite(1.0)).None?
    ensures ValidateTemperature(Finite(-0.1)).Some? && ValidateTemperature(Finite(1.1)).Some?
    ensures ValidateTemperature(NaN).Some? && ValidateTemperature(Infinity(false)).Some?
    ensures ValidateTemperature(Infinity(true)).Some?
  {
  }

  /** Exactly the positive whole numbers pass; 0, fractions, NaN and the
      infinities do not. */
  lemma PositiveIntAcceptsExactlyPositiveWholeNumbers(k: int, x: real)
    ensures ValidatePositiveInt(Finite(k as real)).None? <==> k > 0
    ensures x.Floor as real != x ==> ValidatePositiveInt(Finite(x)).Some?
    ensures ValidatePositiveInt(Finite(0.5)).Some? && ValidatePositiveInt(Finite(0.0)).Some?
  {
    assert (k as real).Floor == k;
  }

  /** The two enumeration messages are different from each other and from the
      numeric ones, so each message names the check that failed. */
  lemma MessagesDistinct(a: Validator, b: Validator)
    ensures Message(a) == Message(b) ==> a == b
  {
  }
}
