/** What the parsing of override templates reads, told against a writing of the values and by the raw keys. */
module ThinkingParsing {
  import opened Common
  import opened Text
  import opened ThinkingBudget
  import opened Thinking
  import opened ThinkingProperties

  /** A text that is not blank and has no white space around it. */
  predicate Trimmed(s: string) {
    s != "" && Strip(s) == s
  }

  /** Values as they stand in a template: a type, what the type needs, and a label. */
  predicate Canonical(v: ThinkingValue) {
    && v.labelZh.Some? && Trimmed(v.labelZh.value)
    && match v.valueType
       case CodeValue => v.code.Some? && Trimmed(v.code.value) && v.mode.None? && v.budgetTokens.None?
       case FixedValue => v.code == Some("fixed") && v.mode.None? && v.budgetTokens.None?
       case BudgetValue =>
         && v.code.None?
         && (((v.mode == Some("off") || v.mode == Some("dynamic")) && v.budgetTokens.None?)
             || (v.mode == Some("budget") && v.budgetTokens.Some? && v.budgetTokens.value >= 0))
  }

  /** The raw map spells the value out. */
  predicate Spells(raw: Payload, v: ThinkingValue) {
    && v.labelZh.Some? && Get(raw, "labelZh") == VStr(v.labelZh.value)
    && match v.valueType
       case CodeValue => Get(raw, "valueType") == VStr("code") && v.code.Some? && Get(raw, "code") == VStr(v.code.value)
       case FixedValue => Get(raw, "valueType") == VStr("fixed") && Get(raw, "code") == VStr("fixed")
       case BudgetValue =>
         && Get(raw, "valueType") == VStr("budget") && v.mode.Some? && Get(raw, "mode") == VStr(v.mode.value)
         && (v.budgetTokens.Some? ==> Get(raw, "budgetTokens") == VInt(v.budgetTokens.value))
  }

  lemma TrimmedText(s: string)
    requires Trimmed(s)
    ensures TextOf(VStr(s)) == Some(s)
  {
  }

  lemma KeyWords()
    ensures Trimmed("code") && Trimmed("fixed") && Trimmed("budget") && Trimmed("off") && Trimmed("dynamic")
  {
    StripFixed("code");
    StripFixed("fixed");
    StripFixed("budget");
    StripFixed("off");
    StripFixed("dynamic");
  }

  /** Round trip: whatever spells a value out is parsed as that value. */
  lemma SpelledParses(raw: Payload, v: ThinkingValue)
    requires Canonical(v) && Spells(raw, v)
    ensures ParseValue(VMap(raw)) == Some(v)
  {
    KeyWords();
    TrimmedText(v.labelZh.value);
  }

  lemma TokensLabel(n: nat)
    ensures Trimmed(Decimal(n) + " Tokens")
  {
    DecimalNonEmpty(n);
    var s := Decimal(n) + " Tokens";
    DecimalStartsWithDigit(n);
    assert s[0] == Decimal(n)[0] && s[|s| - 1] == 's';
    StripFixed(s);
  }

  lemma {:induction false} DecimalStartsWithDigit(n: nat)
    ensures Decimal(n) != "" && '0' <= Decimal(n)[0] <= '9'
  {
    if n >= 10 {
      DecimalStartsWithDigit(n / 10);
    }
  }

  lemma DefaultLabels()
    ensures Trimmed("动态") && Trimmed("关闭") && Trimmed(FIXED_LABEL)
  {
    StripFixed("动态");
    StripFixed("关闭");
    StripFixed(FIXED_LABEL);
  }

  lemma TextIsTrimmed(v: Value)
    ensures TextOf(v).Some? ==> Trimmed(TextOf(v).value)
    ensures TextOf(v).Some? <==> v.VStr? && Strip(v.s) != ""
    ensures TextOf(v).Some? ==> TextOf(v) == Some(Strip(v.s))
  {
    if v.VStr? {
      StripIdempotent(v.s);
    }
  }

  /** The label is the one given, stripped, or else made of the value. */
  lemma ParsedLabel(v: Value)
    requires ParseValue(v).Some?
    ensures var parsed, given := ParseValue(v).value, Get(v.m, "labelZh");
            parsed.labelZh == Some(
              if given.VStr? && Strip(given.s) != "" then Strip(given.s)
              else match parsed.valueType
                case CodeValue => if parsed.code.Some? then parsed.code.value else ""
                case FixedValue => "固定推理"
                case BudgetValue =>
                  if parsed.mode == Some("dynamic") then "动态"
                  else if parsed.mode == Some("off") then "关闭"
                  else if parsed.budgetTokens.Some? && parsed.budgetTokens.value >= 0
                  then Decimal(parsed.budgetTokens.value) + " Tokens" else "")
  {
  }

  lemma ParsedParts(v: Value)
    requires ParseValue(v).Some?
    ensures var parsed := ParseValue(v).value;
            match parsed.valueType
            case CodeValue => parsed.code.Some? && Trimmed(parsed.code.value) && parsed.mode.None? && parsed.budgetTokens.None?
            case FixedValue => parsed.code == Some("fixed") && parsed.mode.None? && parsed.budgetTokens.None?
            case BudgetValue =>
              && parsed.code.None?
              && (((parsed.mode == Some("off") || parsed.mode == Some("dynamic")) && parsed.budgetTokens.None?)
                  || (parsed.mode == Some("budget") && parsed.budgetTokens.Some? && parsed.budgetTokens.value >= 0))
  {
    TextIsTrimmed(Get(v.m, "code"));
  }

  /** Only such values come out of the parser. */
  lemma ParsedIsCanonical(v: Value)
    requires ParseValue(v).Some?
    ensures Canonical(ParseValue(v).value)
  {
    ParsedParts(v);
    ParsedLabel(v);
    DefaultLabels();
    if Get(v.m, "labelZh").VStr? {
      StripIdempotent(Get(v.m, "labelZh").s);
    }
    if ParseValue(v).value.budgetTokens.Some? {
      TokensLabel(ParseValue(v).value.budgetTokens.value);
    }
  }

  /** The text under a key, stripped. */
  predicate Says(raw: Payload, key: string, text: string) {
    Get(raw, key).VStr? && Strip(Get(raw, key).s) == text
  }

  /** Which raw values parse at all, and to what type, code, mode and tokens. */
  lemma ParsesExactly(v: Value)
    ensures ParseValue(v).Some? <==>
      && v.VMap?
      && (|| (Says(v.m, "valueType", "code") && Get(v.m, "code").VStr? && Strip(Get(v.m, "code").s) != "")
          || (Says(v.m, "valueType", "fixed") && Says(v.m, "code", "fixed"))
          || (Says(v.m, "valueType", "budget")
              && (Says(v.m, "mode", "off") || Says(v.m, "mode", "dynamic")
                  || (Says(v.m, "mode", "budget") && Get(v.m, "budgetTokens").VInt? && Get(v.m, "budgetTokens").i >= 0))))
    ensures ParseValue(v).Some? ==>
      var parsed := ParseValue(v).value;
      match parsed.valueType
      case CodeValue => Says(v.m, "valueType", "code") && parsed.code == Some(Strip(Get(v.m, "code").s))
      case FixedValue => Says(v.m, "valueType", "fixed")
      case BudgetValue =>
        && Says(v.m, "valueType", "budget") && parsed.mode.Some? && Says(v.m, "mode", parsed.mode.value)
        && (parsed.mode == Some("budget") ==> parsed.budgetTokens == Some(Get(v.m, "budgetTokens").i))
  {
  }

  // ------------------------------------------------------------- whole overrides

  /** The values that a template lists: item by item, in order, those that parse and suit the editor. */
  lemma {:induction false} ItemsRead(a: seq<Value>, b: seq<Value>, editor: Option<Editor>)
    ensures ParsedItems([], editor) == []
    ensures ParsedItems(a + b, editor) == ParsedItems(a, editor) + ParsedItems(b, editor)
    decreases |b|
  {
    if b == [] {
      assert a + b == a;
    } else {
      var init := b[..|b| - 1];
      assert (a + b)[..|a + b| - 1] == a + init;
      ItemsRead(a, init, editor);
    }
  }

  lemma ItemRead(item: Value, editor: Option<Editor>)
    ensures var parsed := ParseValue(item);
            ParsedItems([item], editor) == if parsed.Some? && Suited(editor, parsed.value) then [parsed.value] else []
  {
    assert [item][..0] == [];
  }

  /** Each editor works with one type of value; without an editor anything goes. */
  predicate Suited(editor: Option<Editor>, v: ThinkingValue) {
    match editor
    case None => true
    case Some(Discrete) => v.valueType.CodeValue?
    case Some(Budget) => v.valueType.BudgetValue?
    case Some(Fixed) => v.valueType.FixedValue?
  }

  /** The series, the editor and the listed values of a supported override, by the raw keys. */
  lemma OverrideRead(raw: Payload)
    ensures var o, series := ParseSupported(raw), Get(raw, "series");
            var template := if Get(raw, "template").VMap? then Get(raw, "template").m else map[];
            var base := if o.series.Some? then Registry(o.series.value) else None;
            var editor, listed := Get(template, "editorType"), Get(template, "allowedValues");
            && o.supported
            && o.series == (if series.VStr? && Strip(series.s) != "" then Some(NormalSeries(Strip(series.s))) else None)
            && (editor == VStr("discrete") ==> o.editor == Some(Discrete))
            && (editor == VStr("budget") ==> o.editor == Some(Budget))
            && (editor == VStr("fixed") ==> o.editor == Some(Fixed))
            && (editor != VStr("discrete") && editor != VStr("budget") && editor != VStr("fixed") ==>
                  o.editor == if base.Some? then Some(base.value.editor) else None)
            && (if listed.VList? && ParsedItems(listed.items, o.editor) != []
                then o.allowed == ParsedItems(listed.items, o.editor)
                else o.allowed == if base.Some? then base.value.allowed else [])
            && o.details == if Get(raw, "details").VMap? then Get(raw, "details").m else map[]
  {
  }

  /** The default is the template's own if it parses, suits the editor and, for codes, is listed; or else the base's. */
  lemma DefaultRead(raw: Payload)
    ensures var o := ParseSupported(raw);
            var template := if Get(raw, "template").VMap? then Get(raw, "template").m else map[];
            var base, own := if o.series.Some? then Registry(o.series.value) else None, ParseValue(Get(template, "defaultValue"));
            if own.Some? && Suited(o.editor, own.value) && (o.editor == Some(Discrete) ==> Listed(own.value, o.allowed))
            then o.defaultValue == own
            else o.defaultValue == if base.Some? then Some(base.value.defaultValue) else None
  {
  }

  /** A number under a key that is at least some bound. */
  predicate AtLeast(v: Value, bound: int) {
    v.VInt? && v.i >= bound
  }

  /** A budget takes each number that is given and fits, and the rest from the base, or the usual one without a base. */
  lemma BudgetRead(v: Value, fallback: Option<BudgetConfig>)
    requires v.VMap? && (AtLeast(Get(v.m, "minTokens"), 0) || AtLeast(Get(v.m, "maxTokens"), 0) || AtLeast(Get(v.m, "stepTokens"), 1))
    ensures var r := ParseBudget(v, fallback);
            var base := if fallback.Some? then fallback.value else DEFAULT_BUDGET;
            && r.Some?
            && r.value.minTokens == (if AtLeast(Get(v.m, "minTokens"), 0) then Get(v.m, "minTokens").i else base.minTokens)
            && var high := if AtLeast(Get(v.m, "maxTokens"), 0) then Get(v.m, "maxTokens").i else base.maxTokens;
            && (high >= r.value.minTokens ==> r.value.maxTokens == high)
            && (high < r.value.minTokens ==> r.value.maxTokens == r.value.minTokens)
            && (AtLeast(Get(v.m, "stepTokens"), 1) ==> r.value.stepTokens == Get(v.m, "stepTokens").i)
            && (!AtLeast(Get(v.m, "stepTokens"), 1) && base.stepTokens >= 1 ==> r.value.stepTokens == base.stepTokens)
  {
  }

  /** Visibility keeps a reasoning note that is not blank and a boolean on suppression, and nothing else. */
  lemma VisibilityRead(v: Value)
    ensures var r := ParseVisibility(v);
            var reasoning := if v.VMap? then Get(v.m, "reasoning") else VNull;
            var suppression := if v.VMap? then Get(v.m, "supportsSuppression") else VNull;
            var noted := reasoning.VStr? && Strip(reasoning.s) != "";
            && (r.None? <==> !noted && !suppression.VBool?)
            && (r.Some? ==>
                  && r.value.Keys == (if noted then {"reasoning"} else {}) + (if suppression.VBool? then {"supportsSuppression"} else {})
                  && (noted ==> r.value["reasoning"] == VStr(Strip(reasoning.s)))
                  && (suppression.VBool? ==> r.value["supportsSuppression"] == suppression))
  {
    if v.VMap? {
      var reasoning, suppression := TextOf(Get(v.m, "reasoning")), Get(v.m, "supportsSuppression");
      var parsed := (if reasoning.Some? then map["reasoning" := VStr(reasoning.value)] else map[]) +
                    (if suppression.VBool? then map["supportsSuppression" := suppression] else map[]);
      assert "reasoning" in parsed <==> reasoning.Some?;
      assert "supportsSuppression" in parsed <==> suppression.VBool?;
    }
  }

  /** An override that declares a model unsupported keeps its visibility and details only. */
  lemma UnsupportedRead(raw: Payload)
    requires Get(raw, "supported") == VBool(false)
    ensures var r := ParseOverride(VMap(raw));
            && r.Ok? && r.value.Some?
            && var o := r.value.value;
            && !o.supported && o.series.None? && o.editor.None? && o.allowed == [] && o.defaultValue.None? && o.budget.None?
            && o.visibility == ParseVisibility(Get(raw, "visibility"))
            && o.details == if Get(raw, "details").VMap? then Get(raw, "details").m else map[]
  {
  }

  // ---------------------------------------------------------------- the registry

  /** The series lists exactly these codes, in this order, and has one of them as its default. */
  predicate Lists(spec: SeriesSpec, codes: seq<string>, default: string) {
    && spec.editor == Discrete && |spec.allowed| == |codes|
    && (forall i :: 0 <= i < |codes| ==> spec.allowed[i].valueType.CodeValue? && spec.allowed[i].code == Some(codes[i]))
    && spec.defaultValue.valueType.CodeValue? && spec.defaultValue.code == Some(default)
  }

  lemma LevelSeries()
    ensures Registry(UNIFIED).Some? && Lists(Registry(UNIFIED).value, ["none", "low", "medium", "high"], "medium")
    ensures var six := Registry("openai-6-level-superset-v1");
            six.Some? && Lists(six.value, ["none", "minimal", "low", "medium", "high", "xhigh"], "medium")
  {
  }

  lemma OtherLevelSeries()
    ensures var four, qwen := Registry("openai-4-level-minimal-v1"), Registry("qwen-thinking-switch-v1");
            && four.Some? && Lists(four.value, ["minimal", "low", "medium", "high"], "medium")
            && qwen.Some? && Lists(qwen.value, ["false", "true"], "true")
  {
  }

  /** The budget series offer `off`, and Gemini also `dynamic`, which is its default; both take 0 to 2^20 tokens by 2^10. */
  lemma BudgetSeries()
    ensures var anthropic, gemini := Registry("anthropic-budget-v1"), Registry("gemini-2.5-budget-v1");
            && anthropic.Some? && gemini.Some? && anthropic.value.editor == Budget && gemini.value.editor == Budget
            && |anthropic.value.allowed| == 1 && anthropic.value.allowed[0].mode == Some("off")
            && anthropic.value.defaultValue.mode == Some("off")
            && |gemini.value.allowed| == 2 && gemini.value.allowed[0].mode == Some("off")
            && gemini.value.allowed[1].mode == Some("dynamic") && gemini.value.defaultValue.mode == Some("dynamic")
            && anthropic.value.budget == gemini.value.budget && gemini.value.budget.Some?
            && var budget := gemini.value.budget.value;
            budget.minTokens == 0 && budget.maxTokens == 0x10_0000 && budget.stepTokens == 0x400
  {
  }

  /** A model of a family: the name itself, one with a suffix, or one behind a vendor. */
  predicate InFamily(modelId: string, family: string) {
    || modelId == family
    || (|modelId| > |family| && modelId[..|family|] == family && modelId[|family|] == '-')
    || (|modelId| > |family| && modelId[|modelId| - |family| - 1..] == "/" + family)
  }

  lemma FamilyIsModel(modelId: string, family: string)
    ensures IsModel(modelId, family) <==> InFamily(modelId, family)
  {
    if |modelId| > |family| && modelId[..|family|] == family && modelId[|family|] == '-' {
      assert modelId[..|family| + 1] == family + "-";
    }
    if family + "-" <= modelId {
      assert modelId[..|family| + 1] == family + "-" && modelId[|family|] == (family + "-")[|family|];
      assert modelId[..|family|] == (family + "-")[..|family|] == family;
    }
  }

  /** Which routes are verified, and for which series. */
  lemma VerifiedModels(route: Route)
    ensures var spec, openai := VerifiedSpec(route), route.provider == "openai" && route.endpointType == "openai-compatible";
            var m := route.modelId;
            && (spec.Some? <==> openai && (InFamily(m, "gpt-5") || InFamily(m, "gpt-4.1") || InFamily(m, "gpt-4o")))
            && (openai && InFamily(m, "gpt-5") ==> spec.value.seriesId == "openai-6-level-superset-v1")
            && (openai && InFamily(m, "gpt-4.1") && !InFamily(m, "gpt-5") ==> spec.value.seriesId == "openai-4-level-minimal-v1")
            && (openai && InFamily(m, "gpt-4o") && !InFamily(m, "gpt-5") && !InFamily(m, "gpt-4.1") ==>
                  spec.value.seriesId == UNIFIED)
            && (spec.Some? ==> Registry(spec.value.seriesId) == spec)
  {
    FamilyIsModel(route.modelId, "gpt-5");
    FamilyIsModel(route.modelId, "gpt-4.1");
    FamilyIsModel(route.modelId, "gpt-4o");
  }

  /** What a resolved series takes over from its override, and from the series of that name. */
  lemma ResolvedRead(o: OverrideInput)
    requires (o.budget.Some? ==> ConfigOk(o.budget.value)) && ResolveOverride(o).Some?
    ensures var spec := ResolveOverride(o).value;
            && o.series.Some? && spec.seriesId == NormalSeries(o.series.value)
            && var base := Registry(spec.seriesId);
            && (o.editor.Some? ==> spec.editor == o.editor.value)
            && (o.editor.None? ==> base.Some? && spec.editor == base.value.editor)
            && (o.budget.Some? ==> spec.budget == o.budget)
            && (o.budget.None? ==> spec.budget == if base.Some? then base.value.budget else None)
            && spec.visibility == o.visibility && spec.details == o.details
  {
  }

  /** A budget default that is a number is snapped to the series' own budget; modes are taken as they are. */
  lemma BudgetDefaultRead(o: OverrideInput, declared: ThinkingValue)
    requires (o.budget.Some? ==> ConfigOk(o.budget.value)) && ResolveOverride(o).Some?
    requires ResolveOverride(o).value.editor == Budget && o.defaultValue == Some(declared) && declared.valueType.BudgetValue?
    requires declared.mode == Some("off") || declared.mode == Some("dynamic") || declared.budgetTokens.Some?
    ensures var spec := ResolveOverride(o).value;
            && spec.defaultValue.valueType.BudgetValue?
            && (if declared.mode == Some("off") || declared.mode == Some("dynamic")
                then spec.defaultValue.mode == declared.mode && spec.defaultValue.budgetTokens.None?
                else
                  && spec.budget.Some? && ConfigOk(spec.budget.value) && spec.defaultValue.mode == Some("budget")
                  && spec.defaultValue.budgetTokens == Some(Clamp(declared.budgetTokens.value, spec.budget.value))
                  && spec.budget.value.minTokens <= spec.defaultValue.budgetTokens.value <= spec.budget.value.maxTokens)
  {
    var spec := ResolveOverride(o).value;
    RegistryBudgets(NormalSeries(o.series.value));
    if declared.mode != Some("off") && declared.mode != Some("dynamic") {
      ClampSnaps(declared.budgetTokens.value, spec.budget.value);
    }
  }

  /** Resolution keeps of the listed values those that suit the editor, in order; a budget lists modes only. */
  lemma {:induction false} SuitableRead(editor: Editor, a: seq<ThinkingValue>, b: seq<ThinkingValue>)
    ensures Suitable(editor, []) == []
    ensures Suitable(editor, a + b) == Suitable(editor, a) + Suitable(editor, b)
    decreases |b|
  {
    if b == [] {
      assert a + b == a;
    } else {
      var init := b[..|b| - 1];
      assert (a + b)[..|a + b| - 1] == a + init;
      SuitableRead(editor, a, init);
    }
  }

  lemma SuitableAlone(editor: Editor, v: ThinkingValue)
    ensures Suitable(editor, [v]) ==
      if Suited(Some(editor), v) && (editor == Budget ==> v.mode == Some("off") || v.mode == Some("dynamic")) then [v] else []
  {
    assert [v][..0] == [];
  }

  // --------------------------------------------------------------- normal forms

  /** The selection lacks what its type needs. */
  predicate Deficient(s: Selection) {
    || Strip(s.series) == ""
    || (s.value.valueType.CodeValue? && (s.value.code.None? || Strip(s.value.code.value) == ""))
    || (s.value.valueType.BudgetValue?
        && !(s.value.mode == Some("off") || s.value.mode == Some("dynamic")
             || (s.value.mode == Some("budget") && s.value.budgetTokens.Some?)))
  }

  /** The unified series goes by three names, and two of its codes by a third. */
  lemma NormalTells(s: Selection)
    ensures NormalSelection(s).None? <==> Deficient(s)
    ensures NormalSelection(s).Some? ==>
      var n, v := NormalSelection(s).value, s.value;
      && n.series == (if NamesUnified(s.series) then UNIFIED else Strip(s.series))
      && n.value.valueType == v.valueType
      && match v.valueType
         case CodeValue =>
           var off := NamesUnified(s.series) && (Strip(v.code.value) == "off" || Strip(v.code.value) == "disabled");
           n.value.code == Some(if off then "none" else Strip(v.code.value)) && n.value.mode.None? && n.value.budgetTokens.None?
         case BudgetValue => n.value.mode == v.mode && n.value.budgetTokens == v.budgetTokens && n.value.code.None?
         case FixedValue => n.value.code == Some("fixed") && n.value.mode.None? && n.value.budgetTokens.None?
  {
    UnifiedIsStripped();
    if s.value.valueType.CodeValue? && s.value.code.Some? {
      StripIdempotent(s.value.code.value);
    }
  }

  /** Labels: the unified series has its own for its four codes, and a fixed value always has one. */
  lemma NormalLabel(s: Selection)
    requires NormalSelection(s).Some?
    ensures var n, given := NormalSelection(s).value.value, s.value.labelZh;
            match s.value.valueType
            case BudgetValue => n.labelZh == given
            case FixedValue => n.labelZh == Some(if given.Some? && given.value != "" then given.value else "固定推理")
            case CodeValue =>
              if !NamesUnified(s.series) then n.labelZh == given
              else
                n.labelZh == Some(match n.code
                                  case Some("none") => "无"
                                  case Some("low") => "低"
                                  case Some("medium") => "中"
                                  case Some("high") => "高"
                                  case Some(code) => if given.Some? && given.value != "" then given.value else code
                                  case None => "")
  {
    NormalTells(s);
    UnifiedIsStripped();
    if s.value.valueType.CodeValue? && s.value.code.Some? {
      StripIdempotent(s.value.code.value);
    }
  }

  // ------------------------------------------------------------------ outcomes

  /** A value is admitted if it equals a listed one, or is a number of tokens. */
  predicate Admitted(v: ThinkingValue, allowed: seq<ThinkingValue>) {
    || (v.valueType.BudgetValue? && v.mode == Some("budget") && v.budgetTokens.Some?)
    || exists i :: 0 <= i < |allowed| && allowed[i].valueType == v.valueType
                   && (v.valueType.CodeValue? ==> allowed[i].code == v.code)
                   && (v.valueType.BudgetValue? ==> allowed[i].mode == v.mode && allowed[i].budgetTokens == v.budgetTokens)
  }

  /** Why a selection is not applied: the first thing that stands in its way. */
  lemma ReasonTells(selection: Option<Selection>, capability: Capability, route: Route)
    ensures var a := Adapt(selection, capability, route);
            && a.capability == capability
            && a.reason == (
                 if selection.None? then SelectionMissing
                 else
                   var n := NormalSelection(selection.value);
                   if n.None? then SelectionInvalid
                   else if capability.spec.None? then SeriesUnknown
                   else if n.value.series != capability.spec.value.seriesId then SeriesMismatch
                   else if !Admitted(n.value.value, capability.spec.value.allowed) then ValueNotAllowed
                   else if capability.builder.None? then BuilderMissing
                   else if a.settings.None? then MappingFailed
                   else BuilderApplied)
            && (a.requested.Some? <==> selection.Some? && NormalSelection(selection.value).Some?)
            && (a.requested.Some? ==> a.requested == NormalSelection(selection.value))
  {
    if selection.Some? && NormalSelection(selection.value).Some? && capability.spec.Some? {
      AdmittedAllowed(NormalSelection(selection.value).value.value, capability.spec.value.allowed);
    }
  }

  lemma AdmittedAllowed(v: ThinkingValue, allowed: seq<ThinkingValue>)
    ensures Admitted(v, allowed) <==> ValueAllowed(v, allowed)
  {
    forall i | 0 <= i < |allowed|
      ensures ValuesEqual(v, allowed[i]) <==>
        && allowed[i].valueType == v.valueType
        && (v.valueType.CodeValue? ==> allowed[i].code == v.code)
        && (v.valueType.BudgetValue? ==> allowed[i].mode == v.mode && allowed[i].budgetTokens == v.budgetTokens)
    {
    }
  }

  /** Where a capability comes from: the route if it is verified, and else the override if that is usable. */
  lemma CapabilityTells(route: Route, given: Option<OverrideInput>)
    requires given.Some? && given.value.budget.Some? ==> ConfigOk(given.value.budget.value)
    ensures var c := CapabilityOf(route, given);
            if VerifiedSpec(route).Some? then c.source == FromRoute && c.spec == VerifiedSpec(route)
            else if given.Some? && given.value.supported && ResolveOverride(given.value).Some?
            then c.source == FromOverride && c.spec == ResolveOverride(given.value)
            else c.source == FromNowhere && c.spec.None? && c.builder.None?
  {
  }
}
