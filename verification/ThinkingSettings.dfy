/**
 What the model settings of an applied selection say, read from the settings alone: which provider
 they are for, whether they switch thinking off, and which selections they tell apart.
 */
module ThinkingSettings {
  import opened Common
  import opened Text
  import opened ThinkingBudget
  import opened Thinking
  import opened ThinkingProperties

  /** The map under a key, empty if there is none. */
  function Inner(settings: Payload, key: string): Payload {
    if key in settings && settings[key].VMap? then settings[key].m else map[]
  }

  function Google(settings: Payload): Payload {
    Inner(settings, "google_thinking_config")
  }

  function Anthropic(settings: Payload): Payload {
    Inner(settings, "thinking")
  }

  /** The settings of any provider that let the model not think. */
  predicate SwitchesOff(settings: Payload) {
    || Get(settings, "reasoning_effort") == VStr("none")
    || Get(Google(settings), "include_thoughts") == VBool(false)
    || Get(Anthropic(settings), "type") == VStr("off") || Get(Anthropic(settings), "type") == VStr("disabled")
    || Get(Inner(settings, "extra_body"), "enable_thinking") == VBool(false)
  }

  predicate IsCode(value: ThinkingValue, code: string) {
    value.valueType.CodeValue? && value.code == Some(code)
  }

  predicate IsMode(value: ThinkingValue, mode: string) {
    value.valueType.BudgetValue? && value.mode == Some(mode)
  }

  predicate IsOff(value: ThinkingValue) {
    IsCode(value, "none") || IsCode(value, "false") || IsMode(value, "off")
  }

  // ------------------------------------------------------------ by the builder

  lemma BuiltOff(builder: Builder, value: ThinkingValue, route: Route)
    requires Build(builder, value, route).Some? && builder != FixedReasoning
    ensures SwitchesOff(Build(builder, value, route).value) <==> IsOff(value)
  {
  }

  /**
   Settings switch thinking off exactly for the values that mean it, for every builder that sets
   anything; a fixed series sets nothing.
   */
  lemma OffExactly(selection: Option<Selection>, capability: Capability, route: Route)
    requires Adapt(selection, capability, route).isApplied
    ensures var a := Adapt(selection, capability, route);
            && a.settings.Some? && a.applied.Some? && capability.builder.Some?
            && (if capability.builder == Some(FixedReasoning) then a.settings == Some(map[])
                else SwitchesOff(a.settings.value) <==> IsOff(a.applied.value.value))
  {
    AppliedExactly(selection, capability, route);
    if capability.builder != Some(FixedReasoning) {
      BuiltOff(capability.builder.value, Adapt(selection, capability, route).applied.value.value, route);
    }
  }

  // ------------------------------------------------- what settings tell apart

  predicate BothDynamic(a: ThinkingValue, b: ThinkingValue) {
    IsMode(a, "dynamic") && IsMode(b, "budget") && b.budgetTokens == Some(-1)
  }

  /** Two values ask for the same: one code, one mode, one number of tokens; and -1 tokens are dynamic. */
  predicate SameChoice(a: ThinkingValue, b: ThinkingValue) {
    || (a.valueType.CodeValue? && b.valueType.CodeValue? && a.code == b.code)
    || (a.valueType.BudgetValue? && b.valueType.BudgetValue? && a.mode == b.mode
        && (a.mode == Some("budget") ==> a.budgetTokens == b.budgetTokens))
    || BothDynamic(a, b) || BothDynamic(b, a)
  }

  /** What can be read back from settings: an effort or level, whether thoughts are on, a budget. */
  datatype Reading = Reading(effort: Value, thoughts: Value, level: Value, budget: Value, kind: Value, adaptive: Value,
                             tokens: Value, enabled: Value)

  function Read(settings: Payload): Reading {
    var google, anthropic := Google(settings), Anthropic(settings);
    Reading(Get(settings, "reasoning_effort"),
            Get(google, "include_thoughts"), Get(google, "thinking_level"), Get(google, "thinking_budget"),
            Get(anthropic, "type"), Get(anthropic, "effort"), Get(anthropic, "budget_tokens"),
            Get(Inner(settings, "extra_body"), "enable_thinking"))
  }

  const SILENT := Reading(VNull, VNull, VNull, VNull, VNull, VNull, VNull, VNull)

  /** The budget of a level of the unified series: 0, 2^12, 2^15 and 2^17 tokens. */
  function LevelTokens(code: string): int {
    match code
    case "none" => 0
    case "low" => 0x1000
    case "medium" => 0x8000
    case "high" => 0x2_0000
    case _ => -1
  }

  /** What the settings of a builder must read as, for a value it accepts. */
  function Wanted(builder: Builder, value: ThinkingValue, gemini3: bool): Reading {
    var code := if value.code.Some? then VStr(value.code.value) else VNull;
    var tokens := if value.budgetTokens.Some? then VInt(value.budgetTokens.value) else VNull;
    match builder
    case OpenAiEffort => SILENT.(effort := code)
    case GeminiBudget =>
      SILENT.(thoughts := VBool(value.mode != Some("off")),
              budget := if value.mode == Some("off") then VInt(0) else if value.mode == Some("dynamic") then VInt(-1) else tokens)
    case AnthropicBudget => if value.mode == Some("off") then SILENT.(kind := VStr("off")) else SILENT.(tokens := tokens)
    case GeminiUnified =>
      var r := SILENT.(thoughts := VBool(value.code != Some("none")));
      if gemini3 then r.(level := if value.code == Some("none") then VStr("minimal") else code)
      else r.(budget := VInt(LevelTokens(if value.code.Some? then value.code.value else "")))
    case AnthropicAdaptive =>
      if value.code == Some("none") then SILENT.(kind := VStr("disabled"))
      else SILENT.(kind := VStr("adaptive"), adaptive := code)
    case QwenSwitch => SILENT.(enabled := VBool(value.code == Some("true")))
    case FixedReasoning => SILENT
  }

  lemma BudgetReads(builder: Builder, value: ThinkingValue, route: Route)
    requires Build(builder, value, route).Some? && (builder == GeminiBudget || builder == AnthropicBudget)
    ensures Read(Build(builder, value, route).value) == Wanted(builder, value, false)
  {
  }

  lemma UnifiedReads(value: ThinkingValue, route: Route)
    requires Build(GeminiUnified, value, route).Some?
    ensures Read(Build(GeminiUnified, value, route).value)
         == Wanted(GeminiUnified, value, StartsWith(route.modelId, "gemini-3"))
  {
  }

  lemma BuiltReads(builder: Builder, value: ThinkingValue, route: Route)
    requires Build(builder, value, route).Some?
    ensures Read(Build(builder, value, route).value) == Wanted(builder, value, StartsWith(route.modelId, "gemini-3"))
  {
    match builder
    case GeminiBudget => BudgetReads(builder, value, route);
    case AnthropicBudget => BudgetReads(builder, value, route);
    case GeminiUnified => UnifiedReads(value, route);
    case _ =>
  }

  /** What applied settings read as: the choice itself, in the words of the provider. */
  lemma SettingsRead(selection: Option<Selection>, capability: Capability, route: Route)
    requires Adapt(selection, capability, route).isApplied
    ensures var a := Adapt(selection, capability, route);
            && a.settings.Some? && a.applied.Some? && capability.builder.Some?
            && Read(a.settings.value) ==
                 Wanted(capability.builder.value, a.applied.value.value, StartsWith(route.modelId, "gemini-3"))
  {
    AppliedExactly(selection, capability, route);
    BuiltReads(capability.builder.value, Adapt(selection, capability, route).applied.value.value, route);
  }

  lemma AcceptedKinds(builder: Builder, value: ThinkingValue, route: Route)
    requires Build(builder, value, route).Some? && builder != FixedReasoning
    ensures if builder == GeminiBudget || builder == AnthropicBudget then
              && value.valueType.BudgetValue?
              && (value.mode == Some("off") || (value.mode == Some("dynamic") && builder == GeminiBudget)
                  || (value.mode == Some("budget") && value.budgetTokens.Some?))
            else value.valueType.CodeValue? && value.code.Some?
    ensures builder == GeminiUnified ==> LevelTokens(value.code.value) >= 0
    ensures builder == QwenSwitch ==> IsCode(value, "true") || IsCode(value, "false")
  {
  }

  lemma ReadingsDiffer(builder: Builder, a: ThinkingValue, b: ThinkingValue, route: Route)
    requires Build(builder, a, route).Some? && Build(builder, b, route).Some? && builder != FixedReasoning
    ensures var gemini3 := StartsWith(route.modelId, "gemini-3");
            Wanted(builder, a, gemini3) == Wanted(builder, b, gemini3) ==> SameChoice(a, b)
  {
    AcceptedKinds(builder, a, route);
    AcceptedKinds(builder, b, route);
  }

  lemma SameBuilt(builder: Builder, a: ThinkingValue, b: ThinkingValue, route: Route)
    requires Build(builder, a, route).Some? && Build(builder, b, route).Some? && SameChoice(a, b)
    ensures Build(builder, a, route) == Build(builder, b, route)
  {
  }

  /**
   Two selections that are applied get the same settings exactly when they ask for the same; the only
   different values that do are `dynamic` and a budget of -1. A fixed series tells nothing apart.
   */
  lemma SettingsTellApart(a: Selection, b: Selection, capability: Capability, route: Route)
    requires Adapt(Some(a), capability, route).isApplied && Adapt(Some(b), capability, route).isApplied
    requires capability.builder != Some(FixedReasoning)
    ensures var x, y := Adapt(Some(a), capability, route), Adapt(Some(b), capability, route);
            && x.applied.Some? && y.applied.Some?
            && (x.settings == y.settings <==> SameChoice(x.applied.value.value, y.applied.value.value))
  {
    AppliedExactly(Some(a), capability, route);
    AppliedExactly(Some(b), capability, route);
    SettingsRead(Some(a), capability, route);
    SettingsRead(Some(b), capability, route);
    var v, w := NormalSelection(a).value.value, NormalSelection(b).value.value;
    ReadingsDiffer(capability.builder.value, v, w, route);
    if SameChoice(v, w) {
      SameBuilt(capability.builder.value, v, w, route);
    }
  }

  /** How far a level of the unified series goes. */
  function Rank(value: ThinkingValue): nat {
    if IsCode(value, "low") then 1 else if IsCode(value, "medium") then 2 else if IsCode(value, "high") then 3 else 0
  }

  /** The budget of a level, for Gemini models that take a number. */
  lemma LevelBudget(selection: Selection, capability: Capability, route: Route)
    requires Adapt(Some(selection), capability, route).isApplied
    requires capability.builder == Some(GeminiUnified) && !StartsWith(route.modelId, "gemini-3")
    ensures var a := Adapt(Some(selection), capability, route);
            && a.applied.Some? && a.settings.Some?
            && var value := a.applied.value.value;
            && (IsCode(value, "none") || IsCode(value, "low") || IsCode(value, "medium") || IsCode(value, "high"))
            && Get(Google(a.settings.value), "thinking_budget") == VInt(LevelTokens(value.code.value))
  {
    AppliedExactly(Some(selection), capability, route);
    SettingsRead(Some(selection), capability, route);
    AcceptedKinds(GeminiUnified, NormalSelection(selection).value.value, route);
  }

  lemma RanksOrder(v: ThinkingValue, w: ThinkingValue)
    requires IsCode(v, "none") || IsCode(v, "low") || IsCode(v, "medium") || IsCode(v, "high")
    requires IsCode(w, "none") || IsCode(w, "low") || IsCode(w, "medium") || IsCode(w, "high")
    ensures 0 <= LevelTokens(v.code.value)
    ensures Rank(v) < Rank(w) <==> LevelTokens(v.code.value) < LevelTokens(w.code.value)
  {
  }

  /** It grows with the level, from none at all. */
  lemma BudgetsGrow(a: Selection, b: Selection, capability: Capability, route: Route)
    requires Adapt(Some(a), capability, route).isApplied && Adapt(Some(b), capability, route).isApplied
    requires capability.builder == Some(GeminiUnified) && !StartsWith(route.modelId, "gemini-3")
    ensures var x, y := Adapt(Some(a), capability, route), Adapt(Some(b), capability, route);
            && x.applied.Some? && y.applied.Some? && x.settings.Some? && y.settings.Some?
            && var s, t := Get(Google(x.settings.value), "thinking_budget"), Get(Google(y.settings.value), "thinking_budget");
            && s.VInt? && t.VInt? && s.i >= 0
            && (Rank(x.applied.value.value) < Rank(y.applied.value.value) <==> s.i < t.i)
  {
    LevelBudget(a, capability, route);
    LevelBudget(b, capability, route);
    RanksOrder(Adapt(Some(a), capability, route).applied.value.value, Adapt(Some(b), capability, route).applied.value.value);
  }

  // ------------------------------------------------------ which provider gets what

  /** The one key of the settings for each series; the unified series goes by provider. */
  function Family(series: string, provider: string): Option<set<string>> {
    if series == UNIFIED then
      match provider
      case "openai" => Some({"reasoning_effort"})
      case "anthropic" => Some({"thinking"})
      case "gemini" => Some({"google_thinking_config"})
      case "google" => Some({"google_thinking_config"})
      case _ => None
    else
      match series
      case "openai-6-level-superset-v1" => Some({"reasoning_effort"})
      case "openai-4-level-minimal-v1" => Some({"reasoning_effort"})
      case "anthropic-budget-v1" => Some({"thinking"})
      case "gemini-2.5-budget-v1" => Some({"google_thinking_config"})
      case "qwen-thinking-switch-v1" => Some({"extra_body"})
      case "deepseek-fixed-reasoning-v1" => Some({})
      case _ => None
  }

  function BuilderFamily(builder: Builder): set<string> {
    match builder
    case OpenAiEffort => {"reasoning_effort"}
    case GeminiBudget => {"google_thinking_config"}
    case GeminiUnified => {"google_thinking_config"}
    case AnthropicBudget => {"thinking"}
    case AnthropicAdaptive => {"thinking"}
    case QwenSwitch => {"extra_body"}
    case FixedReasoning => {}
  }

  lemma BuiltKeys(builder: Builder, value: ThinkingValue, route: Route)
    requires Build(builder, value, route).Some?
    ensures Build(builder, value, route).value.Keys == BuilderFamily(builder)
  {
  }

  /** The builder of a capability, from its series and the provider. */
  lemma CapabilityFamily(route: Route, given: Option<OverrideInput>)
    requires given.Some? && given.value.budget.Some? ==> ConfigOk(given.value.budget.value)
    ensures var c := CapabilityOf(route, given);
            c.spec.Some? ==>
              if c.builder.Some? then Family(c.spec.value.seriesId, route.provider) == Some(BuilderFamily(c.builder.value))
              else Family(c.spec.value.seriesId, route.provider).None?
  {
    if VerifiedSpec(route).None? && given.Some? && given.value.supported && ResolveOverride(given.value).Some? {
      OverrideFamily(given.value, route);
    }
  }

  lemma OverrideFamily(o: OverrideInput, route: Route)
    requires (o.budget.Some? ==> ConfigOk(o.budget.value)) && ResolveOverride(o).Some?
    ensures var spec := ResolveOverride(o).value;
            var builder := SpecBuilder(spec, route);
            if builder.Some? then Family(spec.seriesId, route.provider) == Some(BuilderFamily(builder.value))
            else Family(spec.seriesId, route.provider).None?
  {
    ResolvedBuilder(o);
    SeriesFamily(ResolveOverride(o).value, route);
  }

  lemma ResolvedBuilder(o: OverrideInput)
    requires (o.budget.Some? ==> ConfigOk(o.budget.value)) && ResolveOverride(o).Some?
    ensures var spec := ResolveOverride(o).value;
            && NormalSeries(spec.seriesId) == spec.seriesId
            && spec.builder == if Registry(spec.seriesId).Some? then Registry(spec.seriesId).value.builder else None
  {
  }

  lemma SeriesFamily(spec: SeriesSpec, route: Route)
    requires NormalSeries(spec.seriesId) == spec.seriesId
    requires spec.builder == if Registry(spec.seriesId).Some? then Registry(spec.seriesId).value.builder else None
    ensures var builder := SpecBuilder(spec, route);
            if builder.Some? then Family(spec.seriesId, route.provider) == Some(BuilderFamily(builder.value))
            else Family(spec.seriesId, route.provider).None?
  {
  }

  /** Applied settings have exactly the key of their series or provider; without one nothing is applied. */
  lemma SettingsByProvider(selection: Selection, route: Route, given: Option<OverrideInput>)
    requires given.Some? && given.value.budget.Some? ==> ConfigOk(given.value.budget.value)
    ensures var a := Adapt(Some(selection), CapabilityOf(route, given), route);
            a.isApplied ==>
              a.applied.Some? && a.settings.Some?
              && Family(a.applied.value.series, route.provider) == Some(a.settings.value.Keys)
  {
    var c := CapabilityOf(route, given);
    AppliedExactly(Some(selection), c, route);
    CapabilityFamily(route, given);
    if Adapt(Some(selection), c, route).isApplied {
      BuiltKeys(c.builder.value, NormalSelection(selection).value.value, route);
    }
  }

  /** On a verified route a listed value is set as it is: the one setting is the value's own code. */
  lemma VerifiedSettings(selection: Selection, route: Route, given: Option<OverrideInput>)
    requires given.Some? && given.value.budget.Some? ==> ConfigOk(given.value.budget.value)
    requires VerifiedSpec(route).Some? && NormalSelection(selection).Some?
    requires NormalSelection(selection).value.series == VerifiedSpec(route).value.seriesId
    requires Listed(NormalSelection(selection).value.value, VerifiedSpec(route).value.allowed)
    ensures NormalSelection(selection).value.value.code.Some?
    ensures Adapt(Some(selection), CapabilityOf(route, given), route).settings
         == Some(map["reasoning_effort" := VStr(NormalSelection(selection).value.value.code.value)])
  {
    VerifiedApplies(selection, route, given);
    VerifiedCodes(route);
    var value := NormalSelection(selection).value.value;
    AppliedExactly(Some(selection), CapabilityOf(route, given), route);
    AcceptedKinds(OpenAiEffort, value, route);
    BuiltReads(OpenAiEffort, value, route);
    BuiltKeys(OpenAiEffort, value, route);
    OneKey(Build(OpenAiEffort, value, route).value, "reasoning_effort");
  }

  lemma OneKey(m: Payload, key: string)
    requires m.Keys == {key}
    ensures m == map[key := m[key]]
  {
  }
}
