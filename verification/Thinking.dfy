/**
 The thinking adapter: normal forms of selections, override templates and their resolution to a
 series, and the adaptation of a selection to a model route. The fields of a route stand for their
 trimmed and lower-cased values.
 */
module Thinking {
  import opened Common
  import opened Text
  import opened ThinkingBudget

  // -------------------------------------------------------------------- data

  datatype ValueType = CodeValue | BudgetValue | FixedValue

  datatype ThinkingValue = ThinkingValue(
    valueType: ValueType,
    code: Option<string>,
    mode: Option<string>,
    budgetTokens: Option<int>,
    labelZh: Option<string>)

  datatype Selection = Selection(series: string, value: ThinkingValue)

  datatype Editor = Discrete | Budget | Fixed

  datatype Builder =
    | OpenAiEffort
    | GeminiBudget
    | GeminiUnified
    | AnthropicBudget
    | AnthropicAdaptive
    | QwenSwitch
    | FixedReasoning

  datatype SeriesSpec = SeriesSpec(
    seriesId: string,
    editor: Editor,
    allowed: seq<ThinkingValue>,
    defaultValue: ThinkingValue,
    builder: Option<Builder>,
    budget: Option<BudgetConfig>,
    visibility: Option<Payload>,
    details: Payload)

  datatype Route = Route(provider: string, endpointType: string, modelId: string)

  datatype OverrideInput = OverrideInput(
    supported: bool,
    series: Option<string>,
    editor: Option<Editor>,
    allowed: seq<ThinkingValue>,
    defaultValue: Option<ThinkingValue>,
    budget: Option<BudgetConfig>,
    visibility: Option<Payload>,
    details: Payload)

  datatype CapabilitySource = FromRoute | FromOverride | FromNowhere

  datatype Capability = Capability(source: CapabilitySource, spec: Option<SeriesSpec>, builder: Option<Builder>, reason: string)

  datatype Reason =
    | SelectionMissing
    | SelectionInvalid
    | SeriesUnknown
    | SeriesMismatch
    | ValueNotAllowed
    | BuilderMissing
    | MappingFailed
    | BuilderApplied

  datatype Adaptation = Adaptation(
    requested: Option<Selection>,
    applied: Option<Selection>,
    isApplied: bool,
    reason: Reason,
    capability: Capability,
    settings: Option<Payload>)

  // ------------------------------------------------------------ normal forms

  const UNIFIED := "unified-4-level-v1"

  const FIXED_LABEL := "固定推理"

  function NormalSeries(series: string): string {
    if series == "openai-4-level-none-v1" || series == "anthropic-adaptive-4-v1" then UNIFIED else series
  }

  function Code(code: string, shown: string): ThinkingValue {
    ThinkingValue(CodeValue, Some(code), None, None, Some(shown))
  }

  function BudgetMode(mode: string, shown: string, tokens: Option<int>): ThinkingValue {
    ThinkingValue(BudgetValue, None, Some(mode), tokens, Some(shown))
  }

  function FixedOf(shown: string): ThinkingValue {
    ThinkingValue(FixedValue, Some("fixed"), None, None, Some(shown))
  }

  function LabelOr(shown: Option<string>, fallback: string): string {
    if shown.Some? && shown.value != "" then shown.value else fallback
  }

  /** The stripped string, when there is one that is not blank. */
  function Nonblank(s: Option<string>): Option<string> {
    if s.None? || Strip(s.value) == "" then None else Some(Strip(s.value))
  }

  function UnifiedCode(code: string): string {
    if code == "disabled" || code == "off" then "none" else code
  }

  function UnifiedLabel(code: string, shown: Option<string>): string {
    if code == "none" then "无"
    else if code == "low" then "低"
    else if code == "medium" then "中"
    else if code == "high" then "高"
    else LabelOr(shown, code)
  }

  /** Codes of the unified series are rewritten; everything else is left as it is. */
  function NormalValue(series: string, value: ThinkingValue): ThinkingValue {
    if NormalSeries(series) != UNIFIED || !value.valueType.CodeValue? || Nonblank(value.code).None? then value
    else
      var code := UnifiedCode(Nonblank(value.code).value);
      Code(code, UnifiedLabel(code, value.labelZh))
  }

  function NormalSelection(s: Selection): Option<Selection> {
    var series := NormalSeries(Strip(s.series));
    if series == "" then None
    else match s.value.valueType
      case CodeValue =>
        if Nonblank(s.value.code).None? then None
        else
          var value := ThinkingValue(CodeValue, Nonblank(s.value.code), None, None, s.value.labelZh);
          Some(Selection(series, NormalValue(series, value)))
      case FixedValue => Some(Selection(series, FixedOf(LabelOr(s.value.labelZh, FIXED_LABEL))))
      case BudgetValue =>
        if s.value.mode != Some("off") && s.value.mode != Some("dynamic") && s.value.mode != Some("budget") then None
        else if s.value.mode == Some("budget") && s.value.budgetTokens.None? then None
        else Some(Selection(series, ThinkingValue(BudgetValue, None, s.value.mode, s.value.budgetTokens, s.value.labelZh)))
  }

  function Dedupe(values: seq<ThinkingValue>, seen: set<string>): seq<ThinkingValue>
    decreases |values|
  {
    if values == [] then []
    else
      var v := values[0];
      if !v.valueType.CodeValue? || v.code.None? then [v] + Dedupe(values[1..], seen)
      else if v.code.value in seen then Dedupe(values[1..], seen)
      else [v] + Dedupe(values[1..], seen + {v.code.value})
  }

  lemma DedupeStep(kept: seq<ThinkingValue>, values: seq<ThinkingValue>, i: nat, seen: set<string>)
    requires i < |values|
    ensures var v := values[i];
            kept + Dedupe(values[i..], seen) ==
              if !v.valueType.CodeValue? || v.code.None? then (kept + [v]) + Dedupe(values[i + 1..], seen)
              else if v.code.value in seen then kept + Dedupe(values[i + 1..], seen)
              else (kept + [v]) + Dedupe(values[i + 1..], seen + {v.code.value})
  {
    var v := values[i];
    assert values[i..][0] == v && values[i..][1..] == values[i + 1..];
    if v.valueType.CodeValue? && v.code.Some? {
      ThenAssociates(kept, v, Dedupe(values[i + 1..], seen + {v.code.value}));
    } else {
      ThenAssociates(kept, v, Dedupe(values[i + 1..], seen));
    }
  }

  lemma ThenAssociates(kept: seq<ThinkingValue>, v: ThinkingValue, rest: seq<ThinkingValue>)
    ensures kept + ([v] + rest) == (kept + [v]) + rest
  {
  }

  method DedupeValues(values: seq<ThinkingValue>) returns (kept: seq<ThinkingValue>)
    ensures kept == Dedupe(values, {})
  {
    kept := [];
    var seen: set<string> := {};
    for i := 0 to |values|
      invariant Dedupe(values, {}) == kept + Dedupe(values[i..], seen)
    {
      DedupeStep(kept, values, i, seen);
      var v := values[i];
      if !v.valueType.CodeValue? || v.code.None? {
        kept := kept + [v];
      } else if v.code.value !in seen {
        seen := seen + {v.code.value};
        kept := kept + [v];
      }
    }
  }

  function NormalValues(series: string, values: seq<ThinkingValue>): seq<ThinkingValue> {
    seq(|values|, i requires 0 <= i < |values| => NormalValue(series, values[i]))
  }

  function SeriesAllowed(series: string, values: seq<ThinkingValue>): seq<ThinkingValue> {
    if NormalSeries(series) == UNIFIED then Dedupe(NormalValues(series, values), {}) else NormalValues(series, values)
  }

  predicate ValuesEqual(a: ThinkingValue, b: ThinkingValue) {
    a.valueType == b.valueType &&
    match a.valueType
    case CodeValue => a.code == b.code
    case FixedValue => true
    case BudgetValue => a.mode == b.mode && a.budgetTokens == b.budgetTokens
  }

  predicate Listed(value: ThinkingValue, values: seq<ThinkingValue>) {
    exists i :: 0 <= i < |values| && ValuesEqual(value, values[i])
  }

  // ----------------------------------------------------------------- registry

  const UNIFIED_SPEC := SeriesSpec(
    UNIFIED, Discrete, [Code("none", "无"), Code("low", "低"), Code("medium", "中"), Code("high", "高")],
    Code("medium", "中"), None, None, None, map[])

  const SIX_LEVEL_SPEC := SeriesSpec(
    "openai-6-level-superset-v1", Discrete,
    [Code("none", "无"), Code("minimal", "极简"), Code("low", "低"), Code("medium", "中"), Code("high", "高"),
     Code("xhigh", "超高")],
    Code("medium", "中"), Some(OpenAiEffort), None, None, map[])

  const MINIMAL_SPEC := SeriesSpec(
    "openai-4-level-minimal-v1", Discrete,
    [Code("minimal", "极简"), Code("low", "低"), Code("medium", "中"), Code("high", "高")],
    Code("medium", "中"), Some(OpenAiEffort), None, None, map[])

  const DEFAULT_BUDGET := BudgetConfig(0, 1048576, 1024, map[])

  const ANTHROPIC_SPEC := SeriesSpec(
    "anthropic-budget-v1", Budget, [BudgetMode("off", "关闭", None)], BudgetMode("off", "关闭", None),
    Some(AnthropicBudget), Some(DEFAULT_BUDGET), None, map[])

  const GEMINI_SPEC := SeriesSpec(
    "gemini-2.5-budget-v1", Budget, [BudgetMode("off", "关闭", None), BudgetMode("dynamic", "动态", None)],
    BudgetMode("dynamic", "动态", None), Some(GeminiBudget), Some(DEFAULT_BUDGET), None, map[])

  const QWEN_SPEC := SeriesSpec(
    "qwen-thinking-switch-v1", Discrete, [Code("false", "关闭"), Code("true", "开启")], Code("true", "开启"),
    Some(QwenSwitch), None, None, map[])

  const DEEPSEEK_SPEC := SeriesSpec(
    "deepseek-fixed-reasoning-v1", Fixed, [FixedOf(FIXED_LABEL)], FixedOf(FIXED_LABEL), Some(FixedReasoning), None,
    Some(map["reasoning" := VStr("fixed-no-visible-trace"), "supportsSuppression" := VBool(true)]), map[])

  function Registry(series: string): Option<SeriesSpec> {
    if series == UNIFIED then Some(UNIFIED_SPEC)
    else if series == "openai-6-level-superset-v1" then Some(SIX_LEVEL_SPEC)
    else if series == "openai-4-level-minimal-v1" then Some(MINIMAL_SPEC)
    else if series == "anthropic-budget-v1" then Some(ANTHROPIC_SPEC)
    else if series == "gemini-2.5-budget-v1" then Some(GEMINI_SPEC)
    else if series == "qwen-thinking-switch-v1" then Some(QWEN_SPEC)
    else if series == "deepseek-fixed-reasoning-v1" then Some(DEEPSEEK_SPEC)
    else None
  }

  // ---------------------------------------------------------- override parsing

  function TextOf(v: Value): Option<string> {
    if v.VStr? then Nonblank(Some(v.s)) else None
  }

  function NonNegative(v: Value): Option<int> {
    if v.VInt? && v.i >= 0 then Some(v.i) else None
  }

  function Positive(v: Value): Option<int> {
    if v.VInt? && v.i > 0 then Some(v.i) else None
  }

  function MapOf(v: Value): Payload {
    if v.VMap? then v.m else map[]
  }

  function ParseValue(v: Value): Option<ThinkingValue> {
    if !v.VMap? then None
    else
      var shown := TextOf(Get(v.m, "labelZh"));
      match TextOf(Get(v.m, "valueType"))
      case None => None
      case Some(t) =>
        if t == "code" then
          match TextOf(Get(v.m, "code"))
          case None => None
          case Some(code) => Some(Code(code, LabelOr(shown, code)))
        else if t == "budget" then
          var mode, tokens := TextOf(Get(v.m, "mode")), NonNegative(Get(v.m, "budgetTokens"));
          if mode == Some("budget") then
            if tokens.None? then None
            else Some(BudgetMode("budget", LabelOr(shown, Decimal(tokens.value) + " Tokens"), tokens))
          else if mode == Some("dynamic") then Some(BudgetMode("dynamic", LabelOr(shown, "动态"), None))
          else if mode == Some("off") then Some(BudgetMode("off", LabelOr(shown, "关闭"), None))
          else None
        else if t == "fixed" then
          if TextOf(Get(v.m, "code")) == Some("fixed") then Some(FixedOf(LabelOr(shown, FIXED_LABEL))) else None
        else None
  }

  function ParseEditor(v: Value, fallback: Option<Editor>): Option<Editor> {
    if v == VStr("discrete") then Some(Discrete)
    else if v == VStr("budget") then Some(Budget)
    else if v == VStr("fixed") then Some(Fixed)
    else fallback
  }

  /** The value type that an editor works with. */
  function TypeFor(editor: Editor): ValueType {
    match editor
    case Discrete => CodeValue
    case Budget => BudgetValue
    case Fixed => FixedValue
  }

  predicate Suits(editor: Option<Editor>, value: ThinkingValue) {
    editor.None? || value.valueType == TypeFor(editor.value)
  }

  function ParsedItems(items: seq<Value>, editor: Option<Editor>): seq<ThinkingValue> {
    if items == [] then []
    else
      var before, parsed := ParsedItems(items[..|items| - 1], editor), ParseValue(items[|items| - 1]);
      if parsed.Some? && Suits(editor, parsed.value) then before + [parsed.value] else before
  }

  function ParseAllowed(v: Value, fallback: seq<ThinkingValue>, editor: Option<Editor>): seq<ThinkingValue> {
    if !v.VList? then fallback
    else
      var parsed := ParsedItems(v.items, editor);
      if parsed != [] then parsed else fallback
  }

  function ParseDefault(
    v: Value, fallback: Option<ThinkingValue>, editor: Option<Editor>, allowed: seq<ThinkingValue>)
    : Option<ThinkingValue>
  {
    match ParseValue(v)
    case None => fallback
    case Some(parsed) =>
      if !Suits(editor, parsed) || (editor == Some(Discrete) && !Listed(parsed, allowed)) then fallback
      else Some(parsed)
  }

  function ParseBudget(v: Value, fallback: Option<BudgetConfig>): Option<BudgetConfig> {
    if !v.VMap? then fallback
    else
      var low, high, step := NonNegative(Get(v.m, "minTokens")), NonNegative(Get(v.m, "maxTokens")),
                             Positive(Get(v.m, "stepTokens"));
      var details := MapOf(Get(v.m, "details"));
      if low.None? && high.None? && step.None? && !Get(v.m, "anchorTokens").VList? && details == map[] then fallback
      else
        var base := if fallback.Some? then fallback.value else DEFAULT_BUDGET;
        var least := if low.Some? then low.value else base.minTokens;
        Some(BudgetConfig(least,
                          Max(least, if high.Some? then high.value else base.maxTokens),
                          Max(1, if step.Some? then step.value else base.stepTokens),
                          details))
  }

  /** The three tests of an item, one for each editor that is picky about it. */
  method Fit(editor: Option<Editor>, value: ThinkingValue) returns (fits: bool)
    ensures fits == Suits(editor, value)
  {
    if editor == Some(Discrete) && !value.valueType.CodeValue? {
      return false;
    }
    if editor == Some(Budget) && !value.valueType.BudgetValue? {
      return false;
    }
    if editor == Some(Fixed) && !value.valueType.FixedValue? {
      return false;
    }
    fits := true;
  }

  lemma ParsedSnoc(items: seq<Value>, i: nat, editor: Option<Editor>)
    requires i < |items|
    ensures var parsed := ParseValue(items[i]);
            ParsedItems(items[..i + 1], editor) == ParsedItems(items[..i], editor) +
              if parsed.Some? && Suits(editor, parsed.value) then [parsed.value] else []
  {
    assert items[..i + 1][..i] == items[..i];
  }

  method ParseAllowedItems(items: seq<Value>, editor: Option<Editor>) returns (parsed: seq<ThinkingValue>)
    ensures parsed == ParsedItems(items, editor)
  {
    parsed := [];
    for i := 0 to |items|
      invariant parsed == ParsedItems(items[..i], editor)
    {
      ParsedSnoc(items, i, editor);
      var value := ParseValue(items[i]);
      if value.Some? {
        var fits := Fit(editor, value.value);
        if fits {
          parsed := parsed + [value.value];
        }
      }
    }
    assert items[..|items|] == items;
  }

  function ParseVisibility(v: Value): Option<Payload> {
    if !v.VMap? then None
    else
      var reasoning := TextOf(Get(v.m, "reasoning"));
      var suppression := Get(v.m, "supportsSuppression");
      var parsed := (if reasoning.Some? then map["reasoning" := VStr(reasoning.value)] else map[]) +
                    (if suppression.VBool? then map["supportsSuppression" := suppression] else map[]);
      if parsed == map[] then None else Some(parsed)
  }

  datatype ParseError = Unhashable

  /**
   `supported` may be a boolean or, as the test is for membership, a number equal to 1 or 0; but only
   `false` itself declares a model unsupported. Lists and maps cannot be tested for membership.
   */
  function ParseOverride(raw: Value): Result<Option<OverrideInput>, ParseError> {
    if !raw.VMap? then Ok(None)
    else match Get(raw.m, "supported")
      case VList(_) => Err(Unhashable)
      case VMap(_) => Err(Unhashable)
      case VBool(b) => Ok(Some(if b then ParseSupported(raw.m) else Unsupported(raw.m)))
      case VInt(i) => if i == 0 || i == 1 then Ok(Some(ParseSupported(raw.m))) else Ok(None)
      case VReal(r) => if r == 0.0 || r == 1.0 then Ok(Some(ParseSupported(raw.m))) else Ok(None)
      case _ => Ok(None)
  }

  function Unsupported(raw: Payload): OverrideInput {
    OverrideInput(false, None, None, [], None, None, ParseVisibility(Get(raw, "visibility")), MapOf(Get(raw, "details")))
  }

  function ParseSupported(raw: Payload): (o: OverrideInput)
    ensures o.budget.Some? ==> ConfigOk(o.budget.value)
  {
    var text := TextOf(Get(raw, "series"));
    var series := if text.Some? then Some(NormalSeries(text.value)) else None;
    var base := if series.Some? then Registry(series.value) else None;
    var template := MapOf(Get(raw, "template"));
    RegistryBudgets(if series.Some? then series.value else "");
    var editor := ParseEditor(Get(template, "editorType"), if base.Some? then Some(base.value.editor) else None);
    var allowed := ParseAllowed(Get(template, "allowedValues"), if base.Some? then base.value.allowed else [], editor);
    OverrideInput(
      true, series, editor, allowed,
      ParseDefault(Get(template, "defaultValue"), if base.Some? then Some(base.value.defaultValue) else None, editor, allowed),
      ParseBudget(Get(template, "budget"), if base.Some? then base.value.budget else None),
      ParseVisibility(Get(raw, "visibility")), MapOf(Get(raw, "details")))
  }

  // ------------------------------------------------------- override resolution

  predicate SuitsEditor(editor: Editor, v: ThinkingValue) {
    v.valueType == TypeFor(editor) && (editor == Budget ==> v.mode == Some("off") || v.mode == Some("dynamic"))
  }

  function Suitable(editor: Editor, values: seq<ThinkingValue>): seq<ThinkingValue> {
    if values == [] then []
    else Suitable(editor, values[..|values| - 1]) +
         if SuitsEditor(editor, values[|values| - 1]) then [values[|values| - 1]] else []
  }

  function FilterAllowed(editor: Editor, values: seq<ThinkingValue>): seq<ThinkingValue> {
    var suitable := Suitable(editor, values);
    match editor
    case Discrete => suitable
    case Budget => if suitable != [] then suitable else [BudgetMode("off", "关闭", None)]
    case Fixed => if suitable != [] then suitable else [FixedOf(FIXED_LABEL)]
  }

  function FirstCode(values: seq<ThinkingValue>): Option<ThinkingValue> {
    if values == [] then None
    else if values[0].valueType.CodeValue? then Some(values[0])
    else FirstCode(values[1..])
  }

  function FirstOff(values: seq<ThinkingValue>): Option<ThinkingValue> {
    if values == [] then None
    else if values[0].valueType.BudgetValue? && values[0].mode == Some("off") then Some(values[0])
    else FirstOff(values[1..])
  }

  /** A budget default: a mode as such, tokens snapped to the configuration, or nothing. */
  function BudgetCandidate(candidate: Option<ThinkingValue>, budget: Option<BudgetConfig>): Option<ThinkingValue>
    requires budget.Some? ==> ConfigOk(budget.value)
  {
    if candidate.None? || !candidate.value.valueType.BudgetValue? then None
    else
      var c := candidate.value;
      if c.mode == Some("off") then Some(BudgetMode("off", LabelOr(c.labelZh, "关闭"), None))
      else if c.mode == Some("dynamic") then Some(BudgetMode("dynamic", LabelOr(c.labelZh, "动态"), None))
      else if c.budgetTokens.None? || budget.None? then None
      else
        var tokens := Clamp(c.budgetTokens.value, budget.value);
        Some(BudgetMode("budget", LabelOr(c.labelZh, TokenLabel(tokens)), Some(tokens)))
  }

  function TokenLabel(tokens: int): string {
    (if tokens < 0 then "-" + Decimal(-tokens) else Decimal(tokens)) + " Tokens"
  }

  function ResolveDefault(
    editor: Editor, candidate: Option<ThinkingValue>, allowed: seq<ThinkingValue>, budget: Option<BudgetConfig>)
    : Option<ThinkingValue>
    requires budget.Some? ==> ConfigOk(budget.value)
  {
    match editor
    case Fixed =>
      if candidate.Some? && candidate.value.valueType.FixedValue? then candidate else Some(FixedOf(FIXED_LABEL))
    case Budget =>
      var parsed := BudgetCandidate(candidate, budget);
      if parsed.Some? then parsed else FirstOff(allowed)
    case Discrete =>
      if candidate.Some? && candidate.value.valueType.CodeValue? && Listed(candidate.value, allowed) then candidate
      else FirstCode(allowed)
  }

  function ResolveOverride(o: OverrideInput): Option<SeriesSpec>
    requires o.budget.Some? ==> ConfigOk(o.budget.value)
  {
    if o.series.None? then None
    else
      var series := NormalSeries(o.series.value);
      var base := Registry(series);
      RegistryBudgets(series);
      if o.editor.None? && base.None? then None
      else
        var editor := if o.editor.Some? then o.editor.value else base.value.editor;
        var budget := if o.budget.Some? then o.budget else if base.Some? then base.value.budget else None;
        var listed := if o.allowed != [] then o.allowed else if base.Some? then base.value.allowed else [];
        var allowed := SeriesAllowed(series, FilterAllowed(editor, listed));
        var candidate := if o.defaultValue.Some? then o.defaultValue else if base.Some? then Some(base.value.defaultValue) else None;
        var resolved := ResolveDefault(editor, candidate, allowed, budget);
        if resolved.None? || (editor == Budget && budget.None?) then None
        else Some(SeriesSpec(series, editor, allowed, NormalValue(series, resolved.value),
                             if base.Some? then base.value.builder else None, budget, o.visibility, o.details))
  }

  lemma RegistryBudgets(series: string)
    ensures Registry(series).Some? && Registry(series).value.budget.Some? ==> ConfigOk(Registry(series).value.budget.value)
  {
  }

  // ------------------------------------------------------------ capabilities

  predicate StartsWith(s: string, prefix: string) {
    prefix <= s
  }

  predicate EndsWith(s: string, suffix: string) {
    |suffix| <= |s| && s[|s| - |suffix|..] == suffix
  }

  predicate IsModel(modelId: string, name: string) {
    modelId == name || StartsWith(modelId, name + "-") || EndsWith(modelId, "/" + name)
  }

  function VerifiedSpec(route: Route): Option<SeriesSpec> {
    if route.provider != "openai" || route.endpointType != "openai-compatible" then None
    else if IsModel(route.modelId, "gpt-5") then Some(SIX_LEVEL_SPEC)
    else if IsModel(route.modelId, "gpt-4.1") then Some(MINIMAL_SPEC)
    else if IsModel(route.modelId, "gpt-4o") then Some(UNIFIED_SPEC)
    else None
  }

  /** The unified series is built by provider; every other series has its own builder. */
  function BuilderFor(spec: SeriesSpec, route: Route): Option<Builder> {
    if NormalSeries(spec.seriesId) != UNIFIED then spec.builder
    else if route.provider == "openai" then Some(OpenAiEffort)
    else if route.provider == "anthropic" then Some(AnthropicAdaptive)
    else if route.provider == "gemini" || route.provider == "google" then Some(GeminiUnified)
    else None
  }

  function CapabilityOf(route: Route, given: Option<OverrideInput>): Capability
    requires given.Some? && given.value.budget.Some? ==> ConfigOk(given.value.budget.value)
  {
    var verified := VerifiedSpec(route);
    if verified.Some? then Capability(FromRoute, verified, SpecBuilder(verified.value, route), "verified_series_resolved")
    else if given.None? then Capability(FromNowhere, None, None, "route_not_verified")
    else if !given.value.supported then Capability(FromNowhere, None, None, "override_declares_unsupported")
    else
      var spec := ResolveOverride(given.value);
      if spec.None? then Capability(FromNowhere, None, None, "override_template_invalid")
      else Capability(FromOverride, spec, SpecBuilder(spec.value, route), "override_series_template_applied")
  }

  /** A builder that is not resolved for the route falls back to the series' own. */
  function SpecBuilder(spec: SeriesSpec, route: Route): Option<Builder> {
    var resolved := BuilderFor(spec, route);
    if resolved.None? then spec.builder else resolved
  }

  // ---------------------------------------------------------------- builders

  predicate CodeAmong(value: ThinkingValue, codes: set<string>) {
    value.valueType.CodeValue? && value.code.Some? && value.code.value in codes
  }

  function GoogleConfig(thoughts: bool, key: string, setting: Value): Payload {
    map["google_thinking_config" := VMap(map["include_thoughts" := VBool(thoughts), key := setting])]
  }

  function BuildUnifiedGemini(code: string, gemini3: bool): Option<Payload> {
    if gemini3 then
      if code == "none" then Some(GoogleConfig(false, "thinking_level", VStr("minimal")))
      else if code == "low" || code == "medium" || code == "high"
      then Some(GoogleConfig(true, "thinking_level", VStr(code)))
      else None
    else if code == "none" then Some(GoogleConfig(false, "thinking_budget", VInt(0)))
    else if code == "low" then Some(GoogleConfig(true, "thinking_budget", VInt(4096)))
    else if code == "medium" then Some(GoogleConfig(true, "thinking_budget", VInt(32768)))
    else if code == "high" then Some(GoogleConfig(true, "thinking_budget", VInt(131072)))
    else None
  }

  function BuildBudget(gemini: bool, value: ThinkingValue): Option<Payload> {
    if !value.valueType.BudgetValue? then None
    else if value.mode == Some("off") then
      Some(if gemini then GoogleConfig(false, "thinking_budget", VInt(0))
           else map["thinking" := VMap(map["type" := VStr("off")])])
    else if value.mode == Some("dynamic") then
      if gemini then Some(GoogleConfig(true, "thinking_budget", VInt(-1))) else None
    else if value.mode == Some("budget") && value.budgetTokens.Some? then
      Some(if gemini then GoogleConfig(true, "thinking_budget", VInt(value.budgetTokens.value))
           else map["thinking" := VMap(map["budget_tokens" := VInt(value.budgetTokens.value)])])
    else None
  }

  function Build(builder: Builder, value: ThinkingValue, route: Route): Option<Payload> {
    match builder
    case OpenAiEffort =>
      if CodeAmong(value, {"none", "minimal", "low", "medium", "high", "xhigh"})
      then Some(map["reasoning_effort" := VStr(value.code.value)])
      else None
    case GeminiBudget => BuildBudget(true, value)
    case AnthropicBudget => BuildBudget(false, value)
    case GeminiUnified =>
      if value.valueType.CodeValue? && value.code.Some?
      then BuildUnifiedGemini(value.code.value, StartsWith(route.modelId, "gemini-3"))
      else None
    case AnthropicAdaptive =>
      if CodeAmong(value, {"none"}) then Some(map["thinking" := VMap(map["type" := VStr("disabled")])])
      else if CodeAmong(value, {"low", "medium", "high"})
      then Some(map["thinking" := VMap(map["type" := VStr("adaptive"), "effort" := VStr(value.code.value)])])
      else None
    case QwenSwitch =>
      if CodeAmong(value, {"true", "false"})
      then Some(map["extra_body" := VMap(map["enable_thinking" := VBool(value.code.value == "true")])])
      else None
    case FixedReasoning => Some(map[])
  }

  // -------------------------------------------------------------- adaptation

  /** Any number of tokens is accepted; other values have to be listed. */
  predicate ValueAllowed(value: ThinkingValue, allowed: seq<ThinkingValue>) {
    (value.valueType.BudgetValue? && value.mode == Some("budget") && value.budgetTokens.Some?) || Listed(value, allowed)
  }

  function Refused(requested: Option<Selection>, reason: Reason, capability: Capability): Adaptation {
    Adaptation(requested, None, false, reason, capability, None)
  }

  function AdaptNormal(requested: Selection, capability: Capability, route: Route): Adaptation {
    if capability.spec.None? then Refused(Some(requested), SeriesUnknown, capability)
    else if requested.series != capability.spec.value.seriesId then Refused(Some(requested), SeriesMismatch, capability)
    else if !ValueAllowed(requested.value, capability.spec.value.allowed)
    then Refused(Some(requested), ValueNotAllowed, capability)
    else if capability.builder.None? then Refused(Some(requested), BuilderMissing, capability)
    else match Build(capability.builder.value, requested.value, route)
      case None => Refused(Some(requested), MappingFailed, capability)
      case Some(settings) => Adaptation(Some(requested), Some(requested), true, BuilderApplied, capability, Some(settings))
  }

  function Adapt(selection: Option<Selection>, capability: Capability, route: Route): Adaptation {
    if selection.None? then Refused(None, SelectionMissing, capability)
    else match NormalSelection(selection.value)
      case None => Refused(None, SelectionInvalid, capability)
      case Some(requested) => AdaptNormal(requested, capability, route)
  }
}
