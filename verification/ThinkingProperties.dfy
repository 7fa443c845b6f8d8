/** What normal forms, override templates and adaptations guarantee. */
module ThinkingProperties {
  import opened Common
  import opened Text
  import opened ThinkingBudget
  import opened Thinking

  // ------------------------------------------------------------ normal forms

  lemma StrippedOnce(s: string)
    ensures Strip(Strip(s)) == Strip(s)
  {
    StripIdempotent(s);
  }

  lemma UnifiedIsStripped()
    ensures Strip(UNIFIED) == UNIFIED && NormalSeries(UNIFIED) == UNIFIED && UNIFIED != ""
  {
    assert UNIFIED[0] == 'u' && UNIFIED[|UNIFIED| - 1] == '1';
    StripFixed(UNIFIED);
  }

  lemma NoneIsStripped()
    ensures Strip("none") == "none"
  {
    StripFixed("none");
  }

  lemma NormalSeriesOnce(series: string)
    ensures var n := NormalSeries(Strip(series)); NormalSeries(Strip(n)) == n
  {
    UnifiedIsStripped();
    StrippedOnce(series);
  }

  /** A code and its label as they come out of the unified series are left alone by it. */
  lemma UnifiedValueOnce(code: string, shown: Option<string>)
    requires code != "" && Strip(code) == code
    ensures var c := UnifiedCode(code);
            var text := UnifiedLabel(c, shown);
            && c != "" && Strip(c) == c && UnifiedCode(c) == c && UnifiedLabel(c, Some(text)) == text
  {
    NoneIsStripped();
  }

  lemma NormalCodeOnce(series: string, code: string, shown: Option<string>)
    requires code != "" && Strip(code) == code && NormalSeries(series) == series
    ensures var v := NormalValue(series, ThinkingValue(CodeValue, Some(code), None, None, shown));
            && v.code.Some? && v.code.value != "" && Strip(v.code.value) == v.code.value
            && v == ThinkingValue(CodeValue, v.code, None, None, v.labelZh)
            && NormalValue(series, v) == v
            && v.code.value == (if series == UNIFIED then UnifiedCode(code) else code)
  {
    UnifiedValueOnce(code, shown);
  }

  lemma NormalFormOnce(s: Selection)
    requires NormalSelection(s).Some?
    ensures NormalSelection(NormalSelection(s).value) == NormalSelection(s)
  {
    var n := NormalSelection(s).value;
    NormalSeriesOnce(s.series);
    if s.value.valueType.CodeValue? {
      var code := Nonblank(s.value.code).value;
      StrippedOnce(s.value.code.value);
      UnifiedIsStripped();
      NormalCodeOnce(n.series, code, s.value.labelZh);
    }
  }

  /** A selection and its normal form have the same outcome on every route, whatever its capability. */
  lemma NormalFormKeepsOutcome(s: Selection, capability: Capability, route: Route)
    requires NormalSelection(s).Some?
    ensures Adapt(Some(NormalSelection(s).value), capability, route) == Adapt(Some(s), capability, route)
  {
    NormalFormOnce(s);
  }

  predicate NamesUnified(series: string) {
    Strip(series) == UNIFIED || Strip(series) == "openai-4-level-none-v1" || Strip(series) == "anthropic-adaptive-4-v1"
  }

  predicate MeansOff(value: ThinkingValue) {
    value.valueType.CodeValue? && value.code.Some?
    && (Strip(value.code.value) == "off" || Strip(value.code.value) == "disabled" || Strip(value.code.value) == "none")
  }

  /** Under every name of the unified series, `off`, `disabled` and `none` are one selection. */
  lemma OffIsNone(a: Selection, b: Selection, capability: Capability, route: Route)
    requires NamesUnified(a.series) && MeansOff(a.value) && NamesUnified(b.series) && MeansOff(b.value)
    ensures NormalSelection(a) == Some(Selection(UNIFIED, Code("none", "无")))
    ensures Adapt(Some(a), capability, route) == Adapt(Some(b), capability, route)
  {
    OffNormal(a);
    OffNormal(b);
  }

  lemma OffNormal(a: Selection)
    requires NamesUnified(a.series) && MeansOff(a.value)
    ensures NormalSelection(a) == Some(Selection(UNIFIED, Code("none", "无")))
  {
    UnifiedIsStripped();
    StrippedOnce(a.value.code.value);
  }

  // -------------------------------------------------------------- adaptation

  /**
   A selection is applied exactly when there are model settings, and then what is applied is its
   normal form, in the series and among the values of the capability, as its builder maps it.
   */
  lemma AppliedExactly(selection: Option<Selection>, capability: Capability, route: Route)
    ensures var a := Adapt(selection, capability, route);
            && (a.isApplied <==> a.settings.Some?) && (a.isApplied <==> a.applied.Some?)
            && (a.isApplied <==> a.reason == BuilderApplied)
            && (a.isApplied <==>
                  && selection.Some? && NormalSelection(selection.value).Some?
                  && var n := NormalSelection(selection.value).value;
                  && capability.spec.Some? && n.series == capability.spec.value.seriesId
                  && ValueAllowed(n.value, capability.spec.value.allowed)
                  && capability.builder.Some? && Build(capability.builder.value, n.value, route).Some?)
            && (a.isApplied ==>
                  && a.applied == NormalSelection(selection.value)
                  && a.settings == Build(capability.builder.value, a.applied.value.value, route))
  {
  }

  lemma OpenAiBuilds(value: ThinkingValue, allowed: seq<ThinkingValue>, route: Route)
    requires Listed(value, allowed)
    requires forall i :: 0 <= i < |allowed| ==>
      CodeAmong(allowed[i], {"none", "minimal", "low", "medium", "high", "xhigh"})
    ensures Build(OpenAiEffort, value, route).Some?
  {
    var i :| 0 <= i < |allowed| && ValuesEqual(value, allowed[i]);
    assert CodeAmong(allowed[i], {"none", "minimal", "low", "medium", "high", "xhigh"});
    assert CodeAmong(value, {"none", "minimal", "low", "medium", "high", "xhigh"});
  }

  lemma OpenAiCodes()
    ensures forall spec, i :: spec in {SIX_LEVEL_SPEC, MINIMAL_SPEC, UNIFIED_SPEC} && 0 <= i < |spec.allowed| ==>
        CodeAmong(spec.allowed[i], {"none", "minimal", "low", "medium", "high", "xhigh"})
  {
  }

  lemma VerifiedCodes(route: Route)
    requires VerifiedSpec(route).Some?
    ensures var spec := VerifiedSpec(route).value;
            && SpecBuilder(spec, route) == Some(OpenAiEffort)
            && spec.editor == Discrete
            && (forall i :: 0 <= i < |spec.allowed| ==>
                  CodeAmong(spec.allowed[i], {"none", "minimal", "low", "medium", "high", "xhigh"}))
  {
    OpenAiCodes();
  }

  /** On a verified route the mapping never fails: what the series lists is what gets applied. */
  lemma VerifiedApplies(selection: Selection, route: Route, given: Option<OverrideInput>)
    requires given.Some? && given.value.budget.Some? ==> ConfigOk(given.value.budget.value)
    requires VerifiedSpec(route).Some? && NormalSelection(selection).Some?
    ensures var n := NormalSelection(selection).value;
            var spec := VerifiedSpec(route).value;
            var applied := Adapt(Some(selection), CapabilityOf(route, given), route).isApplied;
            applied <==> n.series == spec.seriesId && Listed(n.value, spec.allowed)
  {
    var n := NormalSelection(selection).value;
    var spec := VerifiedSpec(route).value;
    VerifiedCodes(route);
    AppliedExactly(Some(selection), CapabilityOf(route, given), route);
    if Listed(n.value, spec.allowed) {
      OpenAiBuilds(n.value, spec.allowed, route);
    }
  }

  /** A caution: a selected number of tokens is passed on as it is, also outside the configured range. */
  lemma SelectedTokensAreNotClamped(series: string, tokens: int, capability: Capability, route: Route)
    requires capability.spec.Some? && capability.spec.value.seriesId == series
    requires NormalSeries(Strip(series)) == series && series != ""
    requires capability.builder == Some(GeminiBudget) || capability.builder == Some(AnthropicBudget)
    ensures var s := Selection(series, BudgetMode("budget", "", Some(tokens)));
            Adapt(Some(s), capability, route).settings
              == Some(if capability.builder == Some(GeminiBudget) then GoogleConfig(true, "thinking_budget", VInt(tokens))
                      else map["thinking" := VMap(map["budget_tokens" := VInt(tokens)])])
  {
  }

  // --------------------------------------------------- well-formed overrides

  predicate WellFormed(v: ThinkingValue) {
    match v.valueType
    case CodeValue => v.code.Some? && v.code.value != "" && Strip(v.code.value) == v.code.value
    case FixedValue => true
    case BudgetValue =>
      && (v.mode == Some("off") || v.mode == Some("dynamic") || v.mode == Some("budget"))
      && (v.budgetTokens.Some? <==> v.mode == Some("budget"))
  }

  predicate AllWellFormed(values: seq<ThinkingValue>) {
    forall i :: 0 <= i < |values| ==> WellFormed(values[i])
  }

  lemma CodeWellFormed(code: string, shown: string)
    requires code != "" && !IsSpace(code[0]) && !IsSpace(code[|code| - 1])
    ensures WellFormed(Code(code, shown))
  {
    StripFixed(code);
  }

  lemma LevelsWellFormed()
    ensures WellFormed(Code("none", "无")) && WellFormed(Code("minimal", "极简")) && WellFormed(Code("low", "低"))
    ensures WellFormed(Code("medium", "中")) && WellFormed(Code("high", "高")) && WellFormed(Code("xhigh", "超高"))
    ensures WellFormed(Code("false", "关闭")) && WellFormed(Code("true", "开启"))
  {
    CodeWellFormed("none", "无");
    CodeWellFormed("minimal", "极简");
    CodeWellFormed("low", "低");
    CodeWellFormed("medium", "中");
    CodeWellFormed("high", "高");
    CodeWellFormed("xhigh", "超高");
    CodeWellFormed("false", "关闭");
    CodeWellFormed("true", "开启");
  }

  predicate SpecWellFormed(spec: SeriesSpec) {
    AllWellFormed(spec.allowed) && WellFormed(spec.defaultValue)
  }

  lemma UnifiedSpecWellFormed()
    ensures SpecWellFormed(UNIFIED_SPEC)
  {
    LevelsWellFormed();
  }

  lemma SixLevelSpecWellFormed()
    ensures SpecWellFormed(SIX_LEVEL_SPEC)
  {
    LevelsWellFormed();
  }

  lemma MinimalSpecWellFormed()
    ensures SpecWellFormed(MINIMAL_SPEC)
  {
    LevelsWellFormed();
  }

  lemma OtherSpecsWellFormed()
    ensures SpecWellFormed(ANTHROPIC_SPEC) && SpecWellFormed(GEMINI_SPEC)
    ensures SpecWellFormed(QWEN_SPEC) && SpecWellFormed(DEEPSEEK_SPEC)
  {
    LevelsWellFormed();
  }

  lemma RegistryWellFormed(series: string)
    requires Registry(series).Some?
    ensures SpecWellFormed(Registry(series).value)
  {
    UnifiedSpecWellFormed();
    SixLevelSpecWellFormed();
    MinimalSpecWellFormed();
    OtherSpecsWellFormed();
  }

  lemma ParseValueWellFormed(v: Value)
    requires ParseValue(v).Some?
    ensures WellFormed(ParseValue(v).value)
  {
    if v.VMap? && TextOf(Get(v.m, "valueType")) == Some("code") {
      StrippedOnce(Get(v.m, "code").s);
    }
  }

  lemma {:induction false} ParsedItemsWellFormed(items: seq<Value>, editor: Option<Editor>)
    ensures AllWellFormed(ParsedItems(items, editor))
  {
    if items != [] {
      ParsedItemsWellFormed(items[..|items| - 1], editor);
      if ParseValue(items[|items| - 1]).Some? {
        ParseValueWellFormed(items[|items| - 1]);
      }
    }
  }

  predicate InputOk(o: OverrideInput) {
    && (o.series.Some? ==> o.series.value != "" && Strip(o.series.value) == o.series.value
                           && NormalSeries(o.series.value) == o.series.value)
    && AllWellFormed(o.allowed)
    && (o.defaultValue.Some? ==> WellFormed(o.defaultValue.value))
    && (o.budget.Some? ==> ConfigOk(o.budget.value))
  }

  lemma ParseBudgetOk(v: Value, fallback: Option<BudgetConfig>)
    requires fallback.Some? ==> ConfigOk(fallback.value)
    ensures ParseBudget(v, fallback).Some? ==> ConfigOk(ParseBudget(v, fallback).value)
  {
  }

  lemma ParseDefaultOk(
    v: Value, fallback: Option<ThinkingValue>, editor: Option<Editor>, allowed: seq<ThinkingValue>)
    requires fallback.Some? ==> WellFormed(fallback.value)
    ensures var d := ParseDefault(v, fallback, editor, allowed); d.Some? ==> WellFormed(d.value)
  {
    if ParseValue(v).Some? {
      ParseValueWellFormed(v);
    }
  }

  lemma ParseAllowedOk(v: Value, fallback: seq<ThinkingValue>, editor: Option<Editor>)
    requires AllWellFormed(fallback)
    ensures AllWellFormed(ParseAllowed(v, fallback, editor))
  {
    if v.VList? {
      ParsedItemsWellFormed(v.items, editor);
    }
  }

  lemma ParsedSeriesOk(raw: Payload)
    ensures var series := ParseSupported(raw).series;
            series.Some? ==> series.value != "" && Strip(series.value) == series.value
                             && NormalSeries(series.value) == series.value
  {
    var text := TextOf(Get(raw, "series"));
    if text.Some? {
      UnifiedIsStripped();
      StrippedOnce(Get(raw, "series").s);
    }
  }

  /** Everything parsed out of a raw override is well formed, whatever the raw template holds. */
  lemma ParsedInputOk(raw: Payload)
    ensures InputOk(ParseSupported(raw))
  {
    var o := ParseSupported(raw);
    var base := if o.series.Some? then Registry(o.series.value) else None;
    var template := MapOf(Get(raw, "template"));
    ParsedSeriesOk(raw);
    if base.Some? {
      RegistryWellFormed(o.series.value);
      RegistryBudgets(o.series.value);
    }
    ParseAllowedOk(Get(template, "allowedValues"), if base.Some? then base.value.allowed else [], o.editor);
    ParseDefaultOk(Get(template, "defaultValue"), if base.Some? then Some(base.value.defaultValue) else None, o.editor, o.allowed);
    ParseBudgetOk(Get(template, "budget"), if base.Some? then base.value.budget else None);
  }

  // --------------------------------------------------- defaults of overrides

  predicate AllOfType(values: seq<ThinkingValue>, t: ValueType) {
    forall i :: 0 <= i < |values| ==> values[i].valueType == t
  }

  lemma {:induction false} SuitableOk(editor: Editor, values: seq<ThinkingValue>)
    requires AllWellFormed(values)
    ensures var kept := Suitable(editor, values);
            && AllWellFormed(kept)
            && forall i :: 0 <= i < |kept| ==> SuitsEditor(editor, kept[i])
  {
    if values != [] {
      SuitableOk(editor, values[..|values| - 1]);
    }
  }

  lemma FilterAllowedOk(editor: Editor, values: seq<ThinkingValue>)
    requires AllWellFormed(values)
    ensures var kept := FilterAllowed(editor, values);
            && AllWellFormed(kept)
            && (forall i :: 0 <= i < |kept| ==> SuitsEditor(editor, kept[i]))
            && (editor != Discrete ==> kept != [])
  {
    SuitableOk(editor, values);
  }

  predicate IsCode(v: ThinkingValue, code: string) {
    v.valueType.CodeValue? && v.code == Some(code)
  }

  predicate HasCode(values: seq<ThinkingValue>, code: string) {
    exists i :: 0 <= i < |values| && IsCode(values[i], code)
  }

  lemma HasCodeCons(v: ThinkingValue, rest: seq<ThinkingValue>, code: string)
    ensures HasCode([v] + rest, code) <==> IsCode(v, code) || HasCode(rest, code)
  {
    var all := [v] + rest;
    if IsCode(v, code) {
      assert IsCode(all[0], code);
    }
    if HasCode(rest, code) {
      var i :| 0 <= i < |rest| && IsCode(rest[i], code);
      assert IsCode(all[i + 1], code);
    }
    if HasCode(all, code) && !IsCode(v, code) {
      var i :| 0 <= i < |all| && IsCode(all[i], code);
      assert IsCode(rest[i - 1], code);
    }
  }

  /** De-duplication keeps every code that has not been seen before. */
  lemma {:induction false} DedupeKeepsCodes(values: seq<ThinkingValue>, seen: set<string>, code: string)
    requires AllWellFormed(values)
    ensures HasCode(Dedupe(values, seen), code) <==> HasCode(values, code) && code !in seen
    decreases |values|
  {
    if values != [] {
      var v, rest := values[0], values[1..];
      assert values == [v] + rest;
      HasCodeCons(v, rest, code);
      if !v.valueType.CodeValue? {
        DedupeKeepsCodes(rest, seen, code);
        HasCodeCons(v, Dedupe(rest, seen), code);
      } else if v.code.value in seen {
        DedupeKeepsCodes(rest, seen, code);
      } else {
        DedupeKeepsCodes(rest, seen + {v.code.value}, code);
        HasCodeCons(v, Dedupe(rest, seen + {v.code.value}), code);
      }
    }
  }

  /** De-duplication adds no value, and keeps the first one. */
  lemma {:induction false} DedupeAddsNone(values: seq<ThinkingValue>, seen: set<string>)
    ensures forall i :: 0 <= i < |Dedupe(values, seen)| ==> Dedupe(values, seen)[i] in values
    ensures values != [] && seen == {} ==> Dedupe(values, seen) != [] && Dedupe(values, seen)[0] == values[0]
    decreases |values|
  {
    if values != [] {
      var v, rest := values[0], values[1..];
      assert values == [v] + rest;
      DedupeAddsNone(rest, seen);
      if v.valueType.CodeValue? && v.code.Some? {
        DedupeAddsNone(rest, seen + {v.code.value});
      }
    }
  }

  lemma {:induction false} DedupeOthers(values: seq<ThinkingValue>, seen: set<string>)
    requires forall i :: 0 <= i < |values| ==> !values[i].valueType.CodeValue?
    ensures Dedupe(values, seen) == values
    decreases |values|
  {
    if values != [] {
      DedupeOthers(values[1..], seen);
      assert values == [values[0]] + values[1..];
    }
  }

  lemma NormalValueOnce(series: string, v: ThinkingValue)
    requires WellFormed(v)
    ensures var n := NormalValue(series, v);
            && WellFormed(n) && n.valueType == v.valueType && NormalValue(series, n) == n
            && (v.valueType.CodeValue? ==> n.code == Some(NormalCode(series, v.code.value)))
  {
    if NormalSeries(series) == UNIFIED && v.valueType.CodeValue? {
      UnifiedValueOnce(v.code.value, v.labelZh);
    }
  }

  function NormalCode(series: string, code: string): string {
    if NormalSeries(series) == UNIFIED then UnifiedCode(code) else code
  }

  /** The values that a resolved discrete series allows. */
  ghost predicate NormalCodes(series: string, values: seq<ThinkingValue>) {
    forall i :: 0 <= i < |values| ==>
      WellFormed(values[i]) && values[i].valueType.CodeValue? && NormalValue(series, values[i]) == values[i]
  }

  lemma SeriesAllowedCodes(series: string, values: seq<ThinkingValue>)
    requires AllWellFormed(values) && AllOfType(values, CodeValue)
    ensures var allowed := SeriesAllowed(series, values);
            && NormalCodes(series, allowed)
            && (values != [] ==> allowed != [] && allowed[0] == NormalValue(series, values[0]))
            && (forall code :: HasCode(allowed, code) <==> HasCode(NormalValues(series, values), code))
  {
    var normal := NormalValues(series, values);
    forall i | 0 <= i < |normal| ensures WellFormed(normal[i]) && normal[i].valueType.CodeValue?
      ensures NormalValue(series, normal[i]) == normal[i]
    {
      NormalValueOnce(series, values[i]);
    }
    if NormalSeries(series) == UNIFIED {
      DedupeAddsNone(normal, {});
      forall code ensures HasCode(Dedupe(normal, {}), code) <==> HasCode(normal, code) {
        DedupeKeepsCodes(normal, {}, code);
      }
    }
  }

  lemma FirstOfCodes(values: seq<ThinkingValue>)
    requires AllOfType(values, CodeValue)
    ensures FirstCode(values) == if values == [] then None else Some(values[0])
  {
  }

  /** A well-formed code selection keeps its code, rewritten. */
  lemma CodeSelected(series: string, v: ThinkingValue)
    requires NormalSeries(series) == series && Strip(series) == series && series != ""
    requires WellFormed(v) && v.valueType.CodeValue? && NormalCode(series, v.code.value) == v.code.value
    ensures var n := NormalSelection(Selection(series, v));
            n.Some? && n.value.series == series && n.value.value.valueType.CodeValue? && n.value.value.code == v.code
  {
    var plain := ThinkingValue(CodeValue, v.code, None, None, v.labelZh);
    NormalValueOnce(series, plain);
  }

  lemma CodesListed(value: ThinkingValue, values: seq<ThinkingValue>)
    requires value.valueType.CodeValue? && value.code.Some?
    ensures Listed(value, values) <==> HasCode(values, value.code.value)
  {
    if Listed(value, values) {
      var i :| 0 <= i < |values| && ValuesEqual(value, values[i]);
      assert IsCode(values[i], value.code.value);
    }
    if HasCode(values, value.code.value) {
      var i :| 0 <= i < |values| && IsCode(values[i], value.code.value);
      assert ValuesEqual(value, values[i]);
    }
  }

  /** A discrete default resolves to a listed code: the candidate's if that is listed, else the first. */
  lemma DiscreteDefault(series: string, candidate: Option<ThinkingValue>, allowed: seq<ThinkingValue>)
    requires NormalCodes(series, allowed) && (candidate.Some? ==> WellFormed(candidate.value))
    ensures var d := ResolveDefault(Discrete, candidate, allowed, None);
            && (d.Some? <==> allowed != [])
            && (d.Some? ==>
                  && WellFormed(d.value) && d.value.valueType.CodeValue?
                  && NormalCode(series, d.value.code.value) == d.value.code.value && HasCode(allowed, d.value.code.value))
  {
    var d := ResolveDefault(Discrete, candidate, allowed, None);
    FirstOfCodes(allowed);
    if d.Some? {
      if d == candidate && d.value.valueType.CodeValue? && Listed(d.value, allowed) {
        CodesListed(d.value, allowed);
        var i :| 0 <= i < |allowed| && IsCode(allowed[i], d.value.code.value);
        NormalValueOnce(series, allowed[i]);
      } else {
        assert IsCode(allowed[0], d.value.code.value);
        NormalValueOnce(series, allowed[0]);
      }
    }
  }

  lemma SameDiscrete(candidate: Option<ThinkingValue>, allowed: seq<ThinkingValue>, budget: Option<BudgetConfig>)
    requires budget.Some? ==> ConfigOk(budget.value)
    ensures ResolveDefault(Discrete, candidate, allowed, budget) == ResolveDefault(Discrete, candidate, allowed, None)
  {
  }

  function Base(o: OverrideInput): Option<SeriesSpec> {
    if o.series.None? then None else Registry(NormalSeries(o.series.value))
  }

  /** The values an override's template lists, its base's if it has none. */
  function ListedBy(o: OverrideInput): seq<ThinkingValue> {
    if o.allowed != [] then o.allowed else if Base(o).Some? then Base(o).value.allowed else []
  }

  function CandidateOf(o: OverrideInput): Option<ThinkingValue> {
    if o.defaultValue.Some? then o.defaultValue else if Base(o).Some? then Some(Base(o).value.defaultValue) else None
  }

  lemma InputParts(o: OverrideInput)
    requires InputOk(o)
    ensures AllWellFormed(ListedBy(o))
    ensures CandidateOf(o).Some? ==> WellFormed(CandidateOf(o).value)
    ensures Base(o).Some? && Base(o).value.budget.Some? ==> ConfigOk(Base(o).value.budget.value)
  {
    if Base(o).Some? {
      RegistryWellFormed(NormalSeries(o.series.value));
      RegistryBudgets(NormalSeries(o.series.value));
    }
  }

  /** What a resolved series is made of. */
  ghost predicate IsSpec(o: OverrideInput, spec: SeriesSpec) {
    && InputOk(o) && (spec.budget.Some? ==> ConfigOk(spec.budget.value)) && (spec.editor == Budget ==> spec.budget.Some?)
    && NormalSeries(spec.seriesId) == spec.seriesId && Strip(spec.seriesId) == spec.seriesId && spec.seriesId != ""
    && spec.allowed == SeriesAllowed(spec.seriesId, FilterAllowed(spec.editor, ListedBy(o)))
    && var d := ResolveDefault(spec.editor, CandidateOf(o), spec.allowed, spec.budget);
    && d.Some? && spec.defaultValue == NormalValue(spec.seriesId, d.value)
  }

  lemma Resolved(o: OverrideInput)
    requires InputOk(o) && ResolveOverride(o).Some?
    ensures IsSpec(o, ResolveOverride(o).value)
  {
    InputParts(o);
  }

  lemma DiscreteSpec(o: OverrideInput, spec: SeriesSpec)
    requires IsSpec(o, spec) && spec.editor == Discrete
    ensures && NormalCodes(spec.seriesId, spec.allowed)
            && WellFormed(spec.defaultValue) && spec.defaultValue.valueType.CodeValue?
            && NormalCode(spec.seriesId, spec.defaultValue.code.value) == spec.defaultValue.code.value
            && HasCode(spec.allowed, spec.defaultValue.code.value)
  {
    InputParts(o);
    FilterAllowedOk(Discrete, ListedBy(o));
    SeriesAllowedCodes(spec.seriesId, FilterAllowed(Discrete, ListedBy(o)));
    SameDiscrete(CandidateOf(o), spec.allowed, spec.budget);
    DiscreteDefault(spec.seriesId, CandidateOf(o), spec.allowed);
    NormalValueOnce(spec.seriesId, ResolveDefault(Discrete, CandidateOf(o), spec.allowed, None).value);
  }

  predicate Accepted(reason: Reason) {
    reason == BuilderApplied || reason == BuilderMissing || reason == MappingFailed
  }

  /** A discrete series' own default passes the checks of series and value. */
  lemma DiscreteDefaultAccepted(o: OverrideInput, spec: SeriesSpec, capability: Capability, route: Route)
    requires IsSpec(o, spec) && spec.editor == Discrete && capability.spec == Some(spec)
    ensures Accepted(Adapt(Some(Selection(spec.seriesId, spec.defaultValue)), capability, route).reason)
  {
    DiscreteSpec(o, spec);
    CodeSelected(spec.seriesId, spec.defaultValue);
    CodesListed(NormalSelection(Selection(spec.seriesId, spec.defaultValue)).value.value, spec.allowed);
  }

  lemma OtherSpec(o: OverrideInput, spec: SeriesSpec)
    requires IsSpec(o, spec) && spec.editor != Discrete
    ensures && spec.allowed != [] && AllWellFormed(spec.allowed)
            && (forall i :: 0 <= i < |spec.allowed| ==> SuitsEditor(spec.editor, spec.allowed[i]))
  {
    var values := FilterAllowed(spec.editor, ListedBy(o));
    InputParts(o);
    FilterAllowedOk(spec.editor, ListedBy(o));
    assert NormalValues(spec.seriesId, values) == values;
    DedupeOthers(values, {});
  }

  lemma FixedSelected(series: string, v: ThinkingValue)
    requires NormalSeries(series) == series && Strip(series) == series && series != "" && v.valueType.FixedValue?
    ensures var n := NormalSelection(Selection(series, v));
            n.Some? && n.value.series == series && n.value.value.valueType.FixedValue?
  {
  }

  lemma FixedDefaultAccepted(o: OverrideInput, spec: SeriesSpec, capability: Capability, route: Route)
    requires IsSpec(o, spec) && spec.editor == Fixed && capability.spec == Some(spec)
    ensures Accepted(Adapt(Some(Selection(spec.seriesId, spec.defaultValue)), capability, route).reason)
  {
    OtherSpec(o, spec);
    FixedSelected(spec.seriesId, spec.defaultValue);
    assert ValuesEqual(NormalSelection(Selection(spec.seriesId, spec.defaultValue)).value.value, spec.allowed[0]);
  }

  /**
   Whatever a raw override holds: if it resolves to a discrete or fixed series for a route, selecting
   that series' own default is never a series mismatch and never a value that is not allowed.
   */
  lemma DefaultAccepted(raw: Payload, route: Route)
    requires VerifiedSpec(route).None?
    requires var spec := CapabilityOf(route, Some(ParseSupported(raw))).spec; spec.Some? && spec.value.editor != Budget
    ensures var capability := CapabilityOf(route, Some(ParseSupported(raw)));
            var spec := capability.spec.value;
            Accepted(Adapt(Some(Selection(spec.seriesId, spec.defaultValue)), capability, route).reason)
  {
    var o := ParseSupported(raw);
    var capability := CapabilityOf(route, Some(o));
    ParsedInputOk(raw);
    Resolved(o);
    if capability.spec.value.editor == Discrete {
      DiscreteDefaultAccepted(o, capability.spec.value, capability, route);
    } else {
      FixedDefaultAccepted(o, capability.spec.value, capability, route);
    }
  }

  predicate HasMode(values: seq<ThinkingValue>, mode: Option<string>) {
    exists i :: 0 <= i < |values| && values[i].mode == mode
  }

  lemma BudgetSpec(o: OverrideInput, spec: SeriesSpec)
    requires IsSpec(o, spec) && spec.editor == Budget
    ensures WellFormed(spec.defaultValue) && spec.defaultValue.valueType.BudgetValue?
  {
    OtherSpec(o, spec);
    InputParts(o);
    FirstOffOk(spec.allowed);
  }

  lemma {:induction false} FirstOffOk(values: seq<ThinkingValue>)
    requires AllWellFormed(values)
    ensures FirstOff(values).Some? ==> WellFormed(FirstOff(values).value) && FirstOff(values).value.valueType.BudgetValue?
  {
    if values != [] {
      FirstOffOk(values[1..]);
    }
  }

  lemma ModesListed(value: ThinkingValue, values: seq<ThinkingValue>)
    requires value.valueType.BudgetValue? && WellFormed(value) && AllWellFormed(values)
    requires forall i :: 0 <= i < |values| ==> SuitsEditor(Budget, values[i])
    ensures Listed(value, values) <==> HasMode(values, value.mode)
  {
    if HasMode(values, value.mode) {
      var i :| 0 <= i < |values| && values[i].mode == value.mode;
      assert ValuesEqual(value, values[i]);
    }
    if Listed(value, values) {
      var i :| 0 <= i < |values| && ValuesEqual(value, values[i]);
      assert values[i].mode == value.mode;
    }
  }

  lemma BudgetReason(spec: SeriesSpec, capability: Capability, route: Route)
    requires capability.spec == Some(spec)
    requires NormalSeries(spec.seriesId) == spec.seriesId && Strip(spec.seriesId) == spec.seriesId && spec.seriesId != ""
    requires WellFormed(spec.defaultValue) && spec.defaultValue.valueType.BudgetValue? && AllWellFormed(spec.allowed)
    requires forall i :: 0 <= i < |spec.allowed| ==> SuitsEditor(Budget, spec.allowed[i])
    ensures var reason := Adapt(Some(Selection(spec.seriesId, spec.defaultValue)), capability, route).reason;
            && (Accepted(reason) || reason == ValueNotAllowed)
            && (reason == ValueNotAllowed <==>
                  spec.defaultValue.mode != Some("budget") && !HasMode(spec.allowed, spec.defaultValue.mode))
  {
    var n := NormalSelection(Selection(spec.seriesId, spec.defaultValue)).value;
    ModesListed(n.value, spec.allowed);
  }

  /** The modes a budget override offers: those its suitable listed values have, or else only `off`. */
  predicate Offers(o: OverrideInput, mode: Option<string>) {
    var suitable := Suitable(Budget, ListedBy(o));
    if suitable == [] then mode == Some("off") else HasMode(suitable, mode)
  }

  lemma OfferedIsListed(o: OverrideInput, spec: SeriesSpec, mode: Option<string>)
    requires IsSpec(o, spec) && spec.editor == Budget
    ensures HasMode(spec.allowed, mode) <==> Offers(o, mode)
  {
    var values := FilterAllowed(Budget, ListedBy(o));
    InputParts(o);
    FilterAllowedOk(Budget, ListedBy(o));
    assert NormalValues(spec.seriesId, values) == values;
    DedupeOthers(values, {});
    if Suitable(Budget, ListedBy(o)) == [] {
      assert values[0].mode == Some("off");
    }
  }

  lemma {:induction false} FirstOffFound(values: seq<ThinkingValue>)
    requires AllOfType(values, BudgetValue)
    ensures FirstOff(values).Some? <==> HasMode(values, Some("off"))
    ensures FirstOff(values).Some? ==> FirstOff(values).value.mode == Some("off")
  {
    if values != [] && values[0].mode != Some("off") {
      FirstOffFound(values[1..]);
      if HasMode(values, Some("off")) {
        var i :| 0 <= i < |values| && values[i].mode == Some("off");
        assert values[1..][i - 1].mode == Some("off");
      }
    }
  }

  lemma BudgetCandidateMode(candidate: Option<ThinkingValue>, budget: BudgetConfig)
    requires ConfigOk(budget) && (candidate.Some? ==> WellFormed(candidate.value))
    ensures var c := BudgetCandidate(candidate, Some(budget));
            if candidate.Some? && candidate.value.valueType.BudgetValue?
            then c.Some? && c.value.mode == candidate.value.mode && c.value.valueType.BudgetValue?
            else c.None?
  {
  }

  /** The resolved default is the candidate's mode, or `off` from the list if the candidate is no budget value. */
  lemma BudgetDefaultMode(o: OverrideInput, spec: SeriesSpec)
    requires IsSpec(o, spec) && spec.editor == Budget
    ensures var c := CandidateOf(o);
            if c.Some? && c.value.valueType.BudgetValue? then spec.defaultValue.mode == c.value.mode
            else spec.defaultValue.mode == Some("off") && HasMode(spec.allowed, Some("off"))
  {
    InputParts(o);
    OtherSpec(o, spec);
    assert AllOfType(spec.allowed, BudgetValue);
    BudgetCandidateMode(CandidateOf(o), spec.budget.value);
    FirstOffFound(spec.allowed);
    FirstOffOk(spec.allowed);
    BudgetUnchanged(spec.seriesId, ResolveDefault(Budget, CandidateOf(o), spec.allowed, spec.budget).value);
  }

  lemma BudgetUnchanged(series: string, v: ThinkingValue)
    requires v.valueType.BudgetValue?
    ensures NormalValue(series, v) == v
  {
  }

  /**
   A budget override's own default is refused exactly when the default it declares or inherits is a
   mode, not a number of tokens, that it does not offer.
   */
  lemma BudgetDefaultRefused(o: OverrideInput, capability: Capability, route: Route)
    requires InputOk(o) && ResolveOverride(o).Some? && ResolveOverride(o).value.editor == Budget
    requires capability.spec == ResolveOverride(o)
    ensures var spec, c := capability.spec.value, CandidateOf(o);
            var reason := Adapt(Some(Selection(spec.seriesId, spec.defaultValue)), capability, route).reason;
            && (Accepted(reason) || reason == ValueNotAllowed)
            && (reason == ValueNotAllowed <==>
                  c.Some? && c.value.valueType.BudgetValue? && c.value.mode != Some("budget") && !Offers(o, c.value.mode))
  {
    var spec := capability.spec.value;
    Resolved(o);
    OtherSpec(o, spec);
    BudgetSpec(o, spec);
    BudgetReason(spec, capability, route);
    BudgetDefaultMode(o, spec);
    OfferedIsListed(o, spec, spec.defaultValue.mode);
  }

  /** Gemini's default is dynamic, and this template allows only `off`. */
  const OFF_ONLY := OverrideInput(
    true, Some("gemini-2.5-budget-v1"), Some(Budget), [BudgetMode("off", "关闭", None)], None, None, None, map[])

  /** An override that lists only `off` and inherits a dynamic default. */
  lemma OffAlone(o: OverrideInput, off: ThinkingValue)
    requires InputOk(o) && o.series.Some? && o.editor == Some(Budget) && o.allowed == [off] && o.defaultValue.None?
    requires off.valueType.BudgetValue? && off.mode == Some("off")
    requires Base(o).Some? && Base(o).value.budget.Some? && Base(o).value.defaultValue.mode == Some("dynamic")
    requires Base(o).value.defaultValue.valueType.BudgetValue?
    ensures ResolveOverride(o).Some? && ResolveOverride(o).value.editor == Budget
    ensures CandidateOf(o) == Some(Base(o).value.defaultValue) && !Offers(o, Some("dynamic"))
  {
    assert [off][..0] == [] && Suitable(Budget, []) == [];
    assert Suitable(Budget, [off]) == Suitable(Budget, []) + [off];
    InputParts(o);
  }

  lemma OffOnlyBase()
    ensures InputOk(OFF_ONLY) && Base(OFF_ONLY) == Some(GEMINI_SPEC)
  {
    StripFixed("gemini-2.5-budget-v1");
  }

  /** A concrete override whose own default is refused. */
  lemma DynamicDefaultRefused(capability: Capability, route: Route)
    requires capability.spec == ResolveOverride(OFF_ONLY)
    ensures capability.spec.Some?
    ensures var spec := capability.spec.value;
            Adapt(Some(Selection(spec.seriesId, spec.defaultValue)), capability, route).reason == ValueNotAllowed
  {
    OffOnlyBase();
    OffAlone(OFF_ONLY, BudgetMode("off", "关闭", None));
    BudgetDefaultRefused(OFF_ONLY, capability, route);
  }

  lemma DiscreteKept(series: string, values: seq<ThinkingValue>, d: ThinkingValue)
    requires AllWellFormed(values) && AllOfType(values, CodeValue) && values != []
    requires WellFormed(d) && d.valueType.CodeValue? && HasCode(values, d.code.value)
    ensures var r := ResolveDefault(Discrete, Some(d), SeriesAllowed(series, values), None);
            var wanted := NormalCode(series, d.code.value);
            && r.Some? && WellFormed(r.value) && r.value.valueType.CodeValue?
            && (NormalCode(series, r.value.code.value) == wanted <==>
                  wanted == d.code.value || IsCode(NormalValue(series, values[0]), wanted))
  {
    var allowed := SeriesAllowed(series, values);
    var k :| 0 <= k < |values| && IsCode(values[k], d.code.value);
    SeriesAllowedCodes(series, values);
    CodesListed(d, allowed);
    FirstOfCodes(allowed);
    NormalValueOnce(series, values[k]);
    NormalValueOnce(series, values[0]);
    UnifiedCodeOnce(values[0].code.value);
    assert IsCode(NormalValues(series, values)[k], NormalCode(series, d.code.value));
    if NormalCode(series, d.code.value) != d.code.value {
      RewrittenGone(series, values, d.code.value);
    }
  }

  /**
   A listed discrete default keeps its meaning exactly when its code is not rewritten, or the first
   listed code means the same: a rewritten default is no longer found and gives way to the first.
   */
  lemma DiscreteDefaultKept(o: OverrideInput, d: ThinkingValue)
    requires InputOk(o) && o.series.Some? && o.editor == Some(Discrete)
    requires o.defaultValue == Some(d) && d.valueType.CodeValue?
    requires HasCode(FilterAllowed(Discrete, ListedBy(o)), d.code.value)
    ensures ResolveOverride(o).Some?
    ensures var series, values := o.series.value, FilterAllowed(Discrete, ListedBy(o));
            var wanted := NormalCode(series, d.code.value);
            ResolveOverride(o).value.defaultValue.code == Some(wanted) <==>
              wanted == d.code.value || IsCode(NormalValue(series, values[0]), wanted)
  {
    var series, values := o.series.value, FilterAllowed(Discrete, ListedBy(o));
    InputParts(o);
    FilterAllowedOk(Discrete, ListedBy(o));
    DiscreteKept(series, values, d);
    var spec := ResolveOverride(o).value;
    SameDiscrete(Some(d), spec.allowed, spec.budget);
    NormalValueOnce(series, ResolveDefault(Discrete, Some(d), spec.allowed, None).value);
  }

  const LOW_ITEM := VMap(map["valueType" := VStr("code"), "code" := VStr("low")])

  const OFF_ITEM := VMap(map["valueType" := VStr("code"), "code" := VStr("off")])

  const OFF_TEMPLATE: Payload := map["allowedValues" := VList([LOW_ITEM, OFF_ITEM]), "defaultValue" := OFF_ITEM]

  /** A raw override that lists `low` before `off` and wants `off` by default. */
  const OFF_DEFAULT: Payload := map["supported" := VBool(true), "series" := VStr(UNIFIED), "template" := VMap(OFF_TEMPLATE)]

  lemma ParsedCode(code: string)
    requires code != "" && Strip(code) == code
    ensures ParseValue(VMap(map["valueType" := VStr("code"), "code" := VStr(code)])) == Some(Code(code, code))
  {
    StripFixed("code");
  }

  lemma TwoItems(a: Value, b: Value, editor: Option<Editor>)
    requires ParseValue(a).Some? && ParseValue(b).Some?
    requires Suits(editor, ParseValue(a).value) && Suits(editor, ParseValue(b).value)
    ensures ParsedItems([a, b], editor) == [ParseValue(a).value, ParseValue(b).value]
  {
    ParsedSnoc([a, b], 0, editor);
    ParsedSnoc([a, b], 1, editor);
    assert [a, b][..2] == [a, b] && [a, b][..0] == [];
  }

  lemma TwoCodesListed(a: ThinkingValue, b: ThinkingValue)
    requires a.valueType.CodeValue? && b.valueType.CodeValue?
    ensures Listed(b, [a, b]) && Suitable(Discrete, [a, b]) == [a, b]
  {
    assert ValuesEqual(b, [a, b][1]);
    assert [a, b][..1] == [a] && [a][..0] == [];
    assert Suitable(Discrete, [a]) == Suitable(Discrete, []) + [a];
    assert Suitable(Discrete, [a, b]) == Suitable(Discrete, [a]) + [b];
  }

  /** An override of the unified series that lists two codes and has the second one as its default. */
  lemma UnifiedParsed(raw: Payload, template: Payload, a: Value, b: Value)
    requires Get(raw, "series") == VStr(UNIFIED) && Get(raw, "template") == VMap(template)
    requires Get(template, "editorType") == VNull
    requires Get(template, "allowedValues") == VList([a, b]) && Get(template, "defaultValue") == b
    requires ParseValue(a).Some? && ParseValue(a).value.valueType.CodeValue?
    requires ParseValue(b).Some? && ParseValue(b).value.valueType.CodeValue?
    ensures var o := ParseSupported(raw);
            && o.series == Some(UNIFIED) && o.editor == Some(Discrete)
            && o.allowed == [ParseValue(a).value, ParseValue(b).value] && o.defaultValue == ParseValue(b)
  {
    UnifiedIsStripped();
    TwoItems(a, b, Some(Discrete));
    TwoCodesListed(ParseValue(a).value, ParseValue(b).value);
    assert TextOf(VStr(UNIFIED)) == Some(UNIFIED);
    assert Registry(UNIFIED) == Some(UNIFIED_SPEC);
    assert ParseEditor(VNull, Some(Discrete)) == Some(Discrete);
  }

  lemma OffDefaultParsed()
    ensures var o, low, off := ParseSupported(OFF_DEFAULT), Code("low", "low"), Code("off", "off");
            && o.series == Some(UNIFIED) && o.editor == Some(Discrete)
            && o.allowed == [low, off] && o.defaultValue == Some(off)
  {
    StripFixed("low");
    StripFixed("off");
    ParsedCode("low");
    ParsedCode("off");
    UnifiedParsed(OFF_DEFAULT, OFF_TEMPLATE, LOW_ITEM, OFF_ITEM);
  }

  lemma RewrittenSecond(o: OverrideInput, a: ThinkingValue, d: ThinkingValue)
    requires InputOk(o) && o.series == Some(UNIFIED) && o.editor == Some(Discrete)
    requires a.valueType.CodeValue? && d.valueType.CodeValue? && o.allowed == [a, d] && o.defaultValue == Some(d)
    requires d.code == Some("off") && a.code.Some? && UnifiedCode(a.code.value) != "none"
    ensures ResolveOverride(o).Some? && ResolveOverride(o).value.defaultValue.code != Some("none")
  {
    UnifiedIsStripped();
    TwoCodesListed(a, d);
    assert IsCode([a, d][1], "off");
    assert WellFormed([a, d][0]);
    NormalValueOnce(UNIFIED, a);
    DiscreteDefaultKept(o, d);
  }

  /** Its resolved default does not switch thinking off any more. */
  lemma OffDefaultLost()
    ensures var spec := ResolveOverride(ParseSupported(OFF_DEFAULT));
            spec.Some? && spec.value.defaultValue.code != Some("none")
  {
    OffDefaultParsed();
    ParsedInputOk(OFF_DEFAULT);
    RewrittenSecond(ParseSupported(OFF_DEFAULT), Code("low", "low"), Code("off", "off"));
  }

  /** A code that is rewritten is not found among rewritten codes. */
  lemma RewrittenGone(series: string, values: seq<ThinkingValue>, code: string)
    requires AllWellFormed(values) && NormalCode(series, code) != code
    ensures !HasCode(NormalValues(series, values), code)
  {
    forall i | 0 <= i < |values| ensures !IsCode(NormalValues(series, values)[i], code) {
      NormalValueOnce(series, values[i]);
      if values[i].valueType.CodeValue? {
        UnifiedCodeOnce(values[i].code.value);
      }
    }
  }

  lemma UnifiedCodeOnce(code: string)
    ensures UnifiedCode(UnifiedCode(code)) == UnifiedCode(code)
  {
  }

  /** Which raw overrides count as declaring support: `true`, and also the numbers 1 and 0 of either kind. */
  lemma SupportDeclared(raw: Payload)
    ensures var supported := Get(raw, "supported");
            var parsed := ParseOverride(VMap(raw));
            && (parsed.Err? <==> supported.VList? || supported.VMap?)
            && (parsed.Ok? && parsed.value.Some? && parsed.value.value.supported <==>
                  || supported == VBool(true) || supported == VInt(1) || supported == VInt(0)
                  || supported == VReal(1.0) || supported == VReal(0.0))
  {
  }
}
