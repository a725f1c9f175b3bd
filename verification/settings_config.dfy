/**
 * The settings catalogue: the twenty setting keys, the seven groups with
 * their labels, and the per-setting metadata table in display order.
 * Labels and descriptions of individual settings are presentation text and
 * are not part of the model.
 */
module SettingsConfig {
  import opened JsCore
  import opened SettingsValidation

  datatype SettingKey =
    | WelcomeMessage
    | ChatProvider | ChatModel | ChatTemperature | ChatMaxTokens | ChatReasoningEffort
    | ExtractProvider | ExtractModel | ExtractTemperature | ExtractMaxTokens | ExtractReasoningEffort
    | SummaryProvider | SummaryModel | SummaryTemperature | SummaryMaxTokens | SummaryReasoningEffort
    | LlmTimeoutSeconds | DailyBudgetUsd | RateLimitMessages | RateLimitWindow

  /** The wire name of a key. */
  function KeyName(k: SettingKey): (n: string)
    ensures |n| > 0
  {
    match k
    case WelcomeMessage => "welcome_message"
    case ChatProvider => "chat_provider"
    case ChatModel => "chat_model"
    case ChatTemperature => "chat_temperature"
    case ChatMaxTokens => "chat_max_tokens"
    case ChatReasoningEffort => "chat_reasoning_effort"
    case ExtractProvider => "extract_provider"
    case ExtractModel => "extract_model"
    case ExtractTemperature => "extract_temperature"
    case ExtractMaxTokens => "extract_max_tokens"
    case ExtractReasoningEffort => "extract_reasoning_effort"
    case SummaryProvider => "summary_provider"
    case SummaryModel => "summary_model"
    case SummaryTemperature => "summary_temperature"
    case SummaryMaxTokens => "summary_max_tokens"
    case SummaryReasoningEffort => "summary_reasoning_effort"
    case LlmTimeoutSeconds => "llm_timeout_seconds"
    case DailyBudgetUsd => "daily_budget_usd"
    case RateLimitMessages => "rate_limit_messages"
    case RateLimitWindow => "rate_limit_window"
  }

  datatype SettingGroup = LlmChat | LlmExtract | LlmSummary | RateLimiting | Budget | Messages | Timeouts

  /** `GROUP_LABELS`, total over the groups. */
  function GroupLabel(g: SettingGroup): (l: string)
    ensures |l| > 0
  {
    match g
    case LlmChat => "LLM Chat"
    case LlmExtract => "LLM Extract"
    case LlmSummary => "LLM Summary"
    case RateLimiting => "Rate Limiting"
    case Budget => "Бюджет"
    case Messages => "Сообщения"
    case Timeouts => "Таймауты"
  }

  /** `GROUPS`: the order in which the page shows the groups. */
  const Groups: seq<SettingGroup> := [LlmChat, LlmExtract, LlmSummary, RateLimiting, Budget, Messages, Timeouts]

  datatype FieldType = StringField | NumberField | SelectField | SliderField | TextareaField

  /** A `SettingMeta` entry without its label and description. */
  datatype Meta = Meta(
    key: SettingKey, fieldType: FieldType, group: SettingGroup,
    validation: Option<Validator>, options: seq<string>,
    min: Option<real>, max: Option<real>, step: Option<real>)

  const ProviderOptions: seq<string> := ["openai", "anthropic", "mock"]
  const ReasoningOptions: seq<string> := ["minimal", "low", "medium", "high"]

  /** The metadata of one setting. */
  function Entry(k: SettingKey): (m: Meta)
    ensures m.key == k
  {
    match k
    case ChatProvider => Select(k, LlmChat, ProviderOptions, Provider)
    case ChatModel => Plain(k, StringField, LlmChat, None)
    case ChatTemperature => Slider(k, LlmChat)
    case ChatMaxTokens => Plain(k, NumberField, LlmChat, Some(PositiveInt))
    case ChatReasoningEffort => Select(k, LlmChat, ReasoningOptions, ReasoningEffort)
    case ExtractProvider => Select(k, LlmExtract, ProviderOptions, Provider)
    case ExtractModel => Plain(k, StringField, LlmExtract, None)
    case ExtractTemperature => Slider(k, LlmExtract)
    case ExtractMaxTokens => Plain(k, NumberField, LlmExtract, Some(PositiveInt))
    case ExtractReasoningEffort => Select(k, LlmExtract, ReasoningOptions, ReasoningEffort)
    case SummaryProvider => Select(k, LlmSummary, ProviderOptions, Provider)
    case SummaryModel => Plain(k, StringField, LlmSummary, None)
    case SummaryTemperature => Slider(k, LlmSummary)
    case SummaryMaxTokens => Plain(k, NumberField, LlmSummary, Some(PositiveInt))
    case SummaryReasoningEffort => Select(k, LlmSummary, ReasoningOptions, ReasoningEffort)
    case RateLimitMessages => Plain(k, NumberField, RateLimiting, Some(PositiveInt))
    case RateLimitWindow => Plain(k, NumberField, RateLimiting, Some(PositiveInt))
    case DailyBudgetUsd => Plain(k, NumberField, Budget, Some(PositiveInt))
    case WelcomeMessage => Plain(k, TextareaField, Messages, None)
    case LlmTimeoutSeconds => Plain(k, NumberField, Timeouts, Some(PositiveInt))
  }

  function Select(k: SettingKey, g: SettingGroup, opts: seq<string>, v: Validator): Meta {
    Meta(k, SelectField, g, Some(v), opts, None, None, None)
  }

  function Plain(k: SettingKey, t: FieldType, g: SettingGroup, v: Option<Validator>): Meta {
    Meta(k, t, g, v, [], None, None, None)
  }

  function Slider(k: SettingKey, g: SettingGroup): Meta {
    Meta(k, SliderField, g, Some(Temperature), [], Some(0.0), Some(1.0), Some(0.1))
  }

  /** The key at each index of `SETTINGS_CONFIG`, in display order. */
  function KeyAt(i: nat): SettingKey
    requires i < 20
  {
    match i
    case 0 => ChatProvider
    case 1 => ChatModel
    case 2 => ChatTemperature
    case 3 => ChatMaxTokens
    case 4 => ChatReasoningEffort
    case 5 => ExtractProvider
    case 6 => ExtractModel
    case 7 => ExtractTemperature
    case 8 => ExtractMaxTokens
    case 9 => ExtractReasoningEffort
    case 10 => SummaryProvider
    case 11 => SummaryModel
    case 12 => SummaryTemperature
    case 13 => SummaryMaxTokens
    case 14 => SummaryReasoningEffort
    case 15 => RateLimitMessages
    case 16 => RateLimitWindow
    case 17 => DailyBudgetUsd
    case 18 => WelcomeMessage
    case _ => LlmTimeoutSeconds
  }

  /** The keys of `SETTINGS_CONFIG`, in display order. */
  function KeysInOrder(): (r: seq<SettingKey>)
    ensures |r| == 20 && forall i :: 0 <= i < 20 ==> r[i] == KeyAt(i)
  {
    seq(20, i requires 0 <= i < 20 => KeyAt(i))
  }

  const CatalogueKeys: seq<SettingKey> := KeysInOrder()

  /** The metadata of each of `keys`, in order. */
  function EntriesOf(keys: seq<SettingKey>): (r: seq<Meta>)
    ensures |r| == |keys| && forall i :: 0 <= i < |keys| ==> r[i] == Entry(keys[i])
  {
    seq(|keys|, i requires 0 <= i < |keys| => Entry(keys[i]))
  }

  /** `SETTINGS_CONFIG`: each key's metadata, in display order. */
  const Catalogue: seq<Meta> := EntriesOf(CatalogueKeys)

  /** Where each key sits in the catalogue. */
  function Position(k: SettingKey): (i: nat)
    ensures i < |Catalogue| && CatalogueKeys[i] == k && Catalogue[i] == Entry(k)
  {
    match k
    case ChatProvider => 0
    case ChatModel => 1
    case ChatTemperature => 2
    case ChatMaxTokens => 3
    case ChatReasoningEffort => 4
    case ExtractProvider => 5
    case ExtractModel => 6
    case ExtractTemperature => 7
    case ExtractMaxTokens => 8
    case ExtractReasoningEffort => 9
    case SummaryProvider => 10
    case SummaryModel => 11
    case SummaryTemperature => 12
    case SummaryMaxTokens => 13
    case SummaryReasoningEffort => 14
    case RateLimitMessages => 15
    case RateLimitWindow => 16
    case DailyBudgetUsd => 17
    case WelcomeMessage => 18
    case LlmTimeoutSeconds => 19
  }

  /** Every entry sits at its own key's position, and is that key's metadata. */
  lemma PositionOfEntry(i: nat)
    requires i < |Catalogue|
    ensures Position(Catalogue[i].key) == i
    ensures Catalogue[i] == Entry(Catalogue[i].key)
  {
    PositionOfKeyAt(i);
  }

  /** The table check: `Position` inverts `KeyAt`. */
  lemma PositionOfKeyAt(i: nat)
    requires i < 20
    ensures Position(KeyAt(i)) == i
  {
  }

  /** Each of the twenty keys appears exactly once in the catalogue. */
  lemma EachKeyOnce(k: SettingKey)
    ensures (set i | 0 <= i < |Catalogue| && Catalogue[i].key == k) == {Position(k)}
  {
    forall i | 0 <= i < |Catalogue| && Catalogue[i].key == k
      ensures i == Position(k)
    {
      PositionOfEntry(i);
    }
  }

  /** `SETTINGS_CONFIG.find((s) => s.key === key)` for a key given as a string. */
  function FindMeta(key: string): (m: Option<Meta>)
    ensures m.Some? ==> m.value in Catalogue && KeyName(m.value.key) == key && m.value == Entry(m.value.key)
    ensures m.None? ==> forall i :: 0 <= i < |Catalogue| ==> KeyName(Catalogue[i].key) != key
  {
    FindMetaFrom(key, 0)
  }

  function FindMetaFrom(key: string, n: nat): (m: Option<Meta>)
    requires n <= |Catalogue|
    ensures m.Some? ==> m.value in Catalogue[n..] && KeyName(m.value.key) == key && m.value == Entry(m.value.key)
    ensures m.None? ==> forall i :: n <= i < |Catalogue| ==> KeyName(Catalogue[i].key) != key
    decreases |Catalogue| - n
  {
    if n == |Catalogue| then None
    else if KeyName(Catalogue[n].key) == key then PositionOfEntry(n); Some(Catalogue[n])
    else FindMetaFrom(key, n + 1)
  }

  lemma KeyNameInjective(a: SettingKey, b: SettingKey)
    ensures KeyName(a) == KeyName(b) ==> a == b
  {
  }

  /** No two groups share a heading. */
  lemma GroupLabelInjective(a: SettingGroup, b: SettingGroup)
    ensures GroupLabel(a) == GroupLabel(b) <==> a == b
  {
  }

  /** Looking a key up by its wire name finds that key's entry. */
  lemma FindMetaOfKeyName(k: SettingKey)
    ensures FindMeta(KeyName(k)) == Some(Entry(k))
  {
    assert KeyName(Catalogue[Position(k)].key) == KeyName(k);
    var m := FindMeta(KeyName(k));
    KeyNameInjective(m.value.key, k);
  }

  // ---------------------------------------------------------------------
  // Agreement between the catalogue and the validators
  // ---------------------------------------------------------------------

  /** The provider select offers exactly the values the provider validator accepts. */
  lemma ProviderOptionsMatchValidator(s: string, i: nat)
    requires i < |Catalogue| && Catalogue[i].validation == Some(Provider)
    ensures Catalogue[i].fieldType == SelectField
    ensures s in Catalogue[i].options <==> ValidateProvider(s).None?
  {
    PositionOfEntry(i);
  }

  /** The reasoning-effort select offers "minimal", which its validator rejects; the
      other options are accepted. */
  lemma ReasoningOptionMinimalRejected(s: string, i: nat)
    requires i < |Catalogue| && Catalogue[i].validation == Some(ReasoningEffort)
    ensures "minimal" in Catalogue[i].options && ValidateReasoningEffort("minimal").Some?
    ensures s in Catalogue[i].options && s != "minimal" ==> ValidateReasoningEffort(s).None?
  {
    PositionOfEntry(i);
  }

  /** The stops of a slider: min, min + step, ... */
  function SliderStop(m: Meta, k: nat): real
    requires m.min.Some? && m.step.Some?
  {
    m.min.value + k as real * m.step.value
  }

  /** Every slider runs from 0 to 1 in steps of 0.1 under the temperature validator,
      so each of its stops up to the maximum is accepted. */
  lemma SlidersMatchTemperature(i: nat, k: nat)
    requires i < |Catalogue| && Catalogue[i].fieldType == SliderField
    ensures var m := Catalogue[i];
      && m.min == Some(0.0) && m.max == Some(1.0) && m.step == Some(0.1)
      && m.validation == Some(Temperature)
      && (SliderStop(m, k) <= m.max.value ==> ValidateTemperature(Finite(SliderStop(m, k))).None?)
  {
    PositionOfEntry(i);
  }

  /** The model names and the welcome message are the only entries without a
      validator. */
  lemma FreeTextHasNoValidator(i: nat)
    requires i < |Catalogue|
    ensures Catalogue[i].validation.None? <==>
      Catalogue[i].key in {ChatModel, ExtractModel, SummaryModel, WelcomeMessage}
  {
    PositionOfEntry(i);
  }
}
