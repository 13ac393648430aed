// Layered per-call defaults: the merge of a Provider's defaults with an Agent's
// overrides, on values and on the heap objects the source works with.
module CallDefaults {
  import opened Basics

  // ----- Values -----

  datatype AnthropicValue = AnthropicValue(effort: string, budget: Option<int>, disableParallel: Option<bool>)
  datatype OpenAIValue = OpenAIValue(reasoningEffort: string, serviceTier: string)
  datatype SafetySetting = SafetySetting(category: string, threshold: string)
  datatype GoogleValue = GoogleValue(level: string, budget: Option<int>, safety: seq<SafetySetting>)

  datatype DefaultsValue = DefaultsValue(
    anthropic: Option<AnthropicValue>, openAI: Option<OpenAIValue>, google: Option<GoogleValue>)

  type Layer = Option<DefaultsValue>

  function OverText(base: string, override: string): string { if override != "" then override else base }
  function OverOption<T>(base: Option<T>, override: Option<T>): Option<T> { if override.Some? then override else base }
  function OverSeq<T>(base: seq<T>, override: seq<T>): seq<T> { if |override| > 0 then override else base }

  function MergeAnthropic(b: Option<AnthropicValue>, o: Option<AnthropicValue>): Option<AnthropicValue> {
    if b.None? then o else if o.None? then b
    else Some(AnthropicValue(OverText(b.value.effort, o.value.effort), OverOption(b.value.budget, o.value.budget),
                             OverOption(b.value.disableParallel, o.value.disableParallel)))
  }

  function MergeOpenAI(b: Option<OpenAIValue>, o: Option<OpenAIValue>): Option<OpenAIValue> {
    if b.None? then o else if o.None? then b
    else Some(OpenAIValue(OverText(b.value.reasoningEffort, o.value.reasoningEffort),
                          OverText(b.value.serviceTier, o.value.serviceTier)))
  }

  function MergeGoogle(b: Option<GoogleValue>, o: Option<GoogleValue>): Option<GoogleValue> {
    if b.None? then o else if o.None? then b
    else Some(GoogleValue(OverText(b.value.level, o.value.level), OverOption(b.value.budget, o.value.budget),
                          OverSeq(b.value.safety, o.value.safety)))
  }

  function Merge(b: Layer, o: Layer): Layer {
    if b.None? then o else if o.None? then b
    else Some(DefaultsValue(MergeAnthropic(b.value.anthropic, o.value.anthropic),
                            MergeOpenAI(b.value.openAI, o.value.openAI),
                            MergeGoogle(b.value.google, o.value.google)))
  }

  // ----- Algebra -----

  lemma NilIsIdentity(x: Layer)
    ensures Merge(None, x) == x && Merge(x, None) == x
  {
  }

  lemma MergeIsAssociative(x: Layer, y: Layer, z: Layer)
    ensures Merge(Merge(x, y), z) == Merge(x, Merge(y, z))
  {
  }

  // A section, and the whole, is there exactly if some layer has it.
  lemma SectionPresentIff(b: Layer, o: Layer)
    ensures Merge(b, o).Some? <==> b.Some? || o.Some?
    ensures Merge(b, o).Some? ==>
              && (Merge(b, o).value.anthropic.Some?
                  <==> (b.Some? && b.value.anthropic.Some?) || (o.Some? && o.value.anthropic.Some?))
              && (Merge(b, o).value.openAI.Some?
                  <==> (b.Some? && b.value.openAI.Some?) || (o.Some? && o.value.openAI.Some?))
              && (Merge(b, o).value.google.Some?
                  <==> (b.Some? && b.value.google.Some?) || (o.Some? && o.value.google.Some?))
  {
  }

  function MergeAll(layers: seq<Layer>): Layer {
    if layers == [] then None else Merge(MergeAll(layers[..|layers| - 1]), layers[|layers| - 1])
  }

  // The settings of a layer, one by one; an absent section sets nothing.
  datatype Setting = Effort | AnthropicBudget | DisableParallel | ReasoningEffort | ServiceTier | Level | GoogleBudget | Safety

  datatype SettingValue = TextValue(text: string) | IntValue(number: int) | BoolValue(flag: bool) | SafetyValue(safety: seq<SafetySetting>)

  function TextSetting(s: string): Option<SettingValue> { if s == "" then None else Some(TextValue(s)) }

  function Read(x: Layer, s: Setting): Option<SettingValue> {
    if x.None? then None
    else match s
      case Effort => if x.value.anthropic.None? then None else TextSetting(x.value.anthropic.value.effort)
      case AnthropicBudget =>
        if x.value.anthropic.None? || x.value.anthropic.value.budget.None? then None
        else Some(IntValue(x.value.anthropic.value.budget.value))
      case DisableParallel =>
        if x.value.anthropic.None? || x.value.anthropic.value.disableParallel.None? then None
        else Some(BoolValue(x.value.anthropic.value.disableParallel.value))
      case ReasoningEffort => if x.value.openAI.None? then None else TextSetting(x.value.openAI.value.reasoningEffort)
      case ServiceTier => if x.value.openAI.None? then None else TextSetting(x.value.openAI.value.serviceTier)
      case Level => if x.value.google.None? then None else TextSetting(x.value.google.value.level)
      case GoogleBudget =>
        if x.value.google.None? || x.value.google.value.budget.None? then None
        else Some(IntValue(x.value.google.value.budget.value))
      case Safety =>
        if x.value.google.None? || x.value.google.value.safety == [] then None
        else Some(SafetyValue(x.value.google.value.safety))
  }

  // Setting by setting, the override wins where it says something.
  lemma MergeIsRightBiased(b: Layer, o: Layer, s: Setting)
    ensures Read(Merge(b, o), s) == OverOption(Read(b, s), Read(o, s))
  {
  }

  function LastSet<T>(xs: seq<Option<T>>): Option<T> {
    if xs == [] then None else OverOption(LastSet(xs[..|xs| - 1]), xs[|xs| - 1])
  }

  function ReadAll(layers: seq<Layer>, s: Setting): seq<Option<SettingValue>> {
    seq(|layers|, i requires 0 <= i < |layers| => Read(layers[i], s))
  }

  lemma {:induction false} ReadMergeAll(layers: seq<Layer>, s: Setting)
    ensures Read(MergeAll(layers), s) == LastSet(ReadAll(layers, s))
  {
    if layers != [] {
      var init := layers[..|layers| - 1];
      ReadMergeAll(init, s);
      MergeIsRightBiased(MergeAll(init), layers[|layers| - 1], s);
      assert ReadAll(layers, s)[..|layers| - 1] == ReadAll(init, s);
    }
  }

  // i is the last index at which xs is set; -1 if there is none.
  predicate IsLastSet<T>(xs: seq<Option<T>>, i: int) {
    -1 <= i < |xs| && (i >= 0 ==> xs[i].Some?) && forall j :: i < j < |xs| ==> xs[j].None?
  }

  lemma {:induction false} LastSetIsLast<T>(xs: seq<Option<T>>, i: int)
    requires IsLastSet(xs, i)
    ensures LastSet(xs) == if i < 0 then None else xs[i]
  {
    if xs != [] && i < |xs| - 1 {
      LastSetIsLast(xs[..|xs| - 1], i);
    }
  }

  // In any stack of layers, each setting comes from the last layer that sets it,
  // and is unset if none does.
  lemma LastLayerWins(layers: seq<Layer>, s: Setting, i: int)
    requires IsLastSet(ReadAll(layers, s), i)
    ensures Read(MergeAll(layers), s) == if i < 0 then None else Read(layers[i], s)
  {
    ReadMergeAll(layers, s);
    LastSetIsLast(ReadAll(layers, s), i);
  }

  // ----- Heap objects -----

  // What a pointer to an integer or a boolean points to.
  class Cell<T> {
    var value: T

    constructor (v: T)
      ensures value == v
    {
      value := v;
    }
  }

  function Deref<T>(c: Cell?<T>): Option<T>
    reads c
  {
    if c == null then None else Some(c.value)
  }

  // The settings a slice refers to; a nil slice is null and reads as empty.
  class Slice {
    var items: seq<SafetySetting>

    constructor ()
      ensures items == []
    {
      items := [];
    }

    method Append(x: SafetySetting)
      modifies this
      ensures items == old(items) + [x]
    {
      items := items + [x];
    }
  }

  function Items(s: Slice?): seq<SafetySetting>
    reads s
  {
    if s == null then [] else s.items
  }

  class Anthropic {
    var effort: string
    var budget: Cell?<int>
    var disableParallel: Cell?<bool>

    // A struct value: the text is copied, the pointers are shared.
    constructor (effort: string, budget: Cell?<int>, disableParallel: Cell?<bool>)
      ensures this.effort == effort && this.budget == budget && this.disableParallel == disableParallel
    {
      this.effort, this.budget, this.disableParallel := effort, budget, disableParallel;
    }

    function Value(): AnthropicValue
      reads this, budget, disableParallel
    {
      AnthropicValue(effort, Deref(budget), Deref(disableParallel))
    }
  }

  class OpenAI {
    var reasoningEffort: string
    var serviceTier: string

    constructor (reasoningEffort: string, serviceTier: string)
      ensures this.reasoningEffort == reasoningEffort && this.serviceTier == serviceTier
    {
      this.reasoningEffort, this.serviceTier := reasoningEffort, serviceTier;
    }

    function Value(): OpenAIValue
      reads this
    {
      OpenAIValue(reasoningEffort, serviceTier)
    }
  }

  class Google {
    var level: string
    var budget: Cell?<int>
    var safety: Slice?

    constructor (level: string, budget: Cell?<int>, safety: Slice?)
      ensures this.level == level && this.budget == budget && this.safety == safety
    {
      this.level, this.budget, this.safety := level, budget, safety;
    }

    function Value(): GoogleValue
      reads this, budget, safety
    {
      GoogleValue(level, Deref(budget), Items(safety))
    }
  }

  class Defaults {
    var anthropic: Anthropic?
    var openAI: OpenAI?
    var google: Google?

    constructor (anthropic: Anthropic?, openAI: OpenAI?, google: Google?)
      ensures this.anthropic == anthropic && this.openAI == openAI && this.google == google
    {
      this.anthropic, this.openAI, this.google := anthropic, openAI, google;
    }

    // The cells and slices its sections point to.
    function Pointees(): set<object?>
      reads this, anthropic, google
    {
      (if anthropic == null then {} else {anthropic.budget, anthropic.disableParallel})
      + (if google == null then {} else {google.budget, google.safety})
    }

    function Value(): DefaultsValue
      reads this, anthropic, openAI, google, Pointees()
    {
      DefaultsValue(AnthropicLayer(anthropic), OpenAILayer(openAI), GoogleLayer(google))
    }
  }

  // Everything a layer's value depends on.
  function Objects(x: Defaults?): set<object?>
    reads x, if x == null then {} else {x.anthropic, x.google}
  {
    if x == null then {} else {x, x.anthropic, x.openAI, x.google} + x.Pointees()
  }

  function LayerOf(x: Defaults?): Layer
    reads x, if x == null then {} else {x.anthropic, x.google}, Objects(x)
  {
    if x == null then None else Some(x.Value())
  }

  // A pointer field after a merge: the override's pointer unless it is nil.
  function Pick<T>(base: Cell?<T>, override: Cell?<T>): Cell?<T> { if override != null then override else base }

  function AnthropicLayer(x: Anthropic?): Option<AnthropicValue>
    reads x, if x == null then {} else {x.budget, x.disableParallel}
  {
    if x == null then None else Some(x.Value())
  }

  function OpenAILayer(x: OpenAI?): Option<OpenAIValue>
    reads x
  {
    if x == null then None else Some(x.Value())
  }

  function GoogleLayer(x: Google?): Option<GoogleValue>
    reads x, if x == null then {} else {x.budget, x.safety}
  {
    if x == null then None else Some(x.Value())
  }

  // One section: taken over as it is when only one side has it, else a new struct.
  method MergeAnthropicSection(base: Anthropic?, override: Anthropic?) returns (result: Anthropic?)
    ensures AnthropicLayer(result) == MergeAnthropic(AnthropicLayer(base), AnthropicLayer(override))
    ensures override == null ==> result == base
    ensures override != null && base == null ==> result == override
    ensures override != null && base != null ==>
              && result != null && fresh(result) && result.budget == Pick(base.budget, override.budget)
              && result.disableParallel == Pick(base.disableParallel, override.disableParallel)
  {
    if override == null {
      return base;
    }
    if base == null {
      return override;
    }
    var merged := new Anthropic(base.effort, base.budget, base.disableParallel);
    if override.effort != "" {
      merged.effort := override.effort;
    }
    if override.budget != null {
      merged.budget := override.budget;
    }
    if override.disableParallel != null {
      merged.disableParallel := override.disableParallel;
    }
    result := merged;
  }

  method MergeOpenAISection(base: OpenAI?, override: OpenAI?) returns (result: OpenAI?)
    ensures OpenAILayer(result) == MergeOpenAI(OpenAILayer(base), OpenAILayer(override))
    ensures override == null ==> result == base
    ensures override != null && base == null ==> result == override
    ensures override != null && base != null ==> result != null && fresh(result)
  {
    if override == null {
      return base;
    }
    if base == null {
      return override;
    }
    var merged := new OpenAI(base.reasoningEffort, base.serviceTier);
    if override.reasoningEffort != "" {
      merged.reasoningEffort := override.reasoningEffort;
    }
    if override.serviceTier != "" {
      merged.serviceTier := override.serviceTier;
    }
    result := merged;
  }

  method MergeGoogleSection(base: Google?, override: Google?) returns (result: Google?)
    ensures GoogleLayer(result) == MergeGoogle(GoogleLayer(base), GoogleLayer(override))
    ensures override == null ==> result == base
    ensures override != null && base == null ==> result == override
    ensures override != null && base != null ==>
              && result != null && fresh(result) && result.budget == Pick(base.budget, override.budget)
              && result.safety == if Items(override.safety) != [] then override.safety else base.safety
  {
    if override == null {
      return base;
    }
    if base == null {
      return override;
    }
    var merged := new Google(base.level, base.budget, base.safety);
    if override.level != "" {
      merged.level := override.level;
    }
    if override.budget != null {
      merged.budget := override.budget;
    }
    if override.safety != null && |override.safety.items| > 0 {
      merged.safety := override.safety;
    }
    result := merged;
  }

  // What the merge of two layers shares with them: whole sections that only one of
  // them has, and the pointers and the slice inside a section that both have. The
  // section structs of the latter are new.
  twostate predicate Shares(base: Defaults, override: Defaults, new result: Defaults)
    reads base, override, result, base.anthropic, override.anthropic, result.anthropic
    reads base.google, override.google, result.google
    reads if override.google == null then {} else {override.google.safety}
  {
    && (if override.anthropic == null then result.anthropic == base.anthropic
        else if base.anthropic == null then result.anthropic == override.anthropic
        else result.anthropic != null && fresh(result.anthropic)
             && result.anthropic.budget == Pick(base.anthropic.budget, override.anthropic.budget)
             && result.anthropic.disableParallel
                == Pick(base.anthropic.disableParallel, override.anthropic.disableParallel))
    && (if override.openAI == null then result.openAI == base.openAI
        else if base.openAI == null then result.openAI == override.openAI
        else result.openAI != null && fresh(result.openAI))
    && (if override.google == null then result.google == base.google
        else if base.google == null then result.google == override.google
        else result.google != null && fresh(result.google)
             && result.google.budget == Pick(base.google.budget, override.google.budget)
             && result.google.safety
                == if Items(override.google.safety) != [] then override.google.safety else base.google.safety)
  }

  // The merge of two layers that are both there.
  method MergeBoth(base: Defaults, override: Defaults) returns (result: Defaults)
    ensures fresh(result) && Shares(base, override, result)
    ensures AnthropicLayer(result.anthropic)
         == MergeAnthropic(AnthropicLayer(base.anthropic), AnthropicLayer(override.anthropic))
    ensures OpenAILayer(result.openAI) == MergeOpenAI(OpenAILayer(base.openAI), OpenAILayer(override.openAI))
    ensures GoogleLayer(result.google) == MergeGoogle(GoogleLayer(base.google), GoogleLayer(override.google))
  {
    var anthropic := MergeAnthropicSection(base.anthropic, override.anthropic);
    var openAI := MergeOpenAISection(base.openAI, override.openAI);
    var google := MergeGoogleSection(base.google, override.google);
    result := new Defaults(anthropic, openAI, google);
  }

  // No object that existed before is modified, and what the result shares with the
  // inputs is known exactly.
  method MergeCallDefaults(base: Defaults?, override: Defaults?) returns (result: Defaults?)
    ensures LayerOf(result) == Merge(LayerOf(base), LayerOf(override))
    ensures LayerOf(base) == old(LayerOf(base)) && LayerOf(override) == old(LayerOf(override))
    ensures base == null ==> result == override
    ensures base != null && override == null ==> result == base
    ensures base != null && override != null ==> result != null && fresh(result) && Shares(base, override, result)
  {
    if base == null {
      return override;
    }
    if override == null {
      return base;
    }
    result := MergeBoth(base, override);
  }

  // The safety settings, appended one by one to a slice of the result's own.
  method CopySettings(src: Slice?) returns (copy: Slice?)
    ensures Items(copy) == Items(src) && (copy != null ==> fresh(copy))
  {
    copy := null;
    if src == null {
      return;
    }
    for i := 0 to |src.items|
      invariant copy != null ==> fresh(copy)
      invariant Items(copy) == src.items[..i]
    {
      if copy == null {
        copy := new Slice();
      }
      copy.Append(src.items[i]);
    }
    assert src.items[..|src.items|] == src.items;
  }

  // Every struct and the slice of the result are new; the pointers in it are the
  // source's own.
  method ConvertCallDefaults(src: Defaults?) returns (result: Defaults?)
    ensures LayerOf(result) == LayerOf(src) && LayerOf(src) == old(LayerOf(src))
    ensures result == null <==> src == null
    ensures result != null ==>
              && fresh(result)
              && (result.anthropic == null <==> src.anthropic == null)
              && (result.openAI == null <==> src.openAI == null)
              && (result.google == null <==> src.google == null)
              && (result.anthropic != null ==>
                    && fresh(result.anthropic) && result.anthropic.budget == src.anthropic.budget
                    && result.anthropic.disableParallel == src.anthropic.disableParallel)
              && (result.openAI != null ==> fresh(result.openAI))
              && (result.google != null ==>
                    && fresh(result.google) && result.google.budget == src.google.budget
                    && (result.google.safety != null ==> fresh(result.google.safety)))
  {
    if src == null {
      return null;
    }
    var anthropic: Anthropic? := null;
    if src.anthropic != null {
      anthropic := new Anthropic(src.anthropic.effort, src.anthropic.budget, src.anthropic.disableParallel);
    }
    var openAI: OpenAI? := null;
    if src.openAI != null {
      openAI := new OpenAI(src.openAI.reasoningEffort, src.openAI.serviceTier);
    }
    var google: Google? := null;
    if src.google != null {
      var settings := CopySettings(src.google.safety);
      google := new Google(src.google.level, src.google.budget, settings);
    }
    result := new Defaults(anthropic, openAI, google);
  }

  // The pointers of a layer, null where there is none.
  function AnthropicBudgetOf(x: Defaults?): Cell?<int>
    reads x, if x == null then {} else {x.anthropic}
  {
    if x == null || x.anthropic == null then null else x.anthropic.budget
  }

  function DisableParallelOf(x: Defaults?): Cell?<bool>
    reads x, if x == null then {} else {x.anthropic}
  {
    if x == null || x.anthropic == null then null else x.anthropic.disableParallel
  }

  function GoogleBudgetOf(x: Defaults?): Cell?<int>
    reads x, if x == null then {} else {x.google}
  {
    if x == null || x.google == null then null else x.google.budget
  }

  // The sections of the result are new, or those of `own`.
  twostate predicate OwnSections(own: Defaults?, new result: Defaults)
    reads result, own, result.google, if own == null then null else own.google
  {
    && (result.anthropic == null || fresh(result.anthropic) || (own != null && result.anthropic == own.anthropic))
    && (result.openAI == null || fresh(result.openAI) || (own != null && result.openAI == own.openAI))
    && (result.google == null || (own != null && result.google == own.google)
        || (fresh(result.google)
            && (result.google.safety == null || fresh(result.google.safety)
                || (own != null && own.google != null && result.google.safety == own.google.safety))))
  }

  // The agent-level part: the overrides are converted and merged onto `own`.
  method Overridden(own: Defaults?, overrides: Defaults) returns (result: Defaults)
    ensures Some(result.Value()) == Merge(LayerOf(own), Some(overrides.Value()))
    ensures fresh(result) && OwnSections(own, result)
    ensures AnthropicBudgetOf(result) == Pick(AnthropicBudgetOf(own), AnthropicBudgetOf(overrides))
    ensures DisableParallelOf(result) == Pick(DisableParallelOf(own), DisableParallelOf(overrides))
    ensures GoogleBudgetOf(result) == Pick(GoogleBudgetOf(own), GoogleBudgetOf(overrides))
  {
    var converted := ConvertCallDefaults(overrides);
    result := MergeCallDefaults(own, converted);
  }

  // What a provider entry shares with the Provider and the binding: the structs and
  // the slice are new, but each pointer is the binding's, or else the Provider's.
  twostate predicate EntryShares(defaults: Defaults?, overrides: Defaults?, new result: Defaults?)
    reads defaults, overrides, result
    reads if defaults == null then {} else {defaults.anthropic, defaults.google}
    reads if overrides == null then {} else {overrides.anthropic, overrides.google}
    reads if result == null then {} else {result.anthropic, result.google}
  {
    && (result != null ==>
          && fresh(result)
          && (result.anthropic != null ==> fresh(result.anthropic))
          && (result.openAI != null ==> fresh(result.openAI))
          && (result.google != null ==>
                fresh(result.google) && (result.google.safety != null ==> fresh(result.google.safety))))
    && AnthropicBudgetOf(result) == Pick(AnthropicBudgetOf(defaults), AnthropicBudgetOf(overrides))
    && DisableParallelOf(result) == Pick(DisableParallelOf(defaults), DisableParallelOf(overrides))
    && GoogleBudgetOf(result) == Pick(GoogleBudgetOf(defaults), GoogleBudgetOf(overrides))
  }

  method LayeredCallDefaults(defaults: Defaults?, overrides: Defaults?) returns (callDefaults: Defaults?)
    ensures LayerOf(callDefaults) == Merge(LayerOf(defaults), LayerOf(overrides))
    ensures EntryShares(defaults, overrides, callDefaults)
  {
    callDefaults := null;
    if defaults != null {
      callDefaults := ConvertCallDefaults(defaults);
    }
    if overrides != null {
      callDefaults := Overridden(callDefaults, overrides);
    }
  }

  // The part of a provider binding that concerns call defaults.
  class Binding {
    var overrides: Defaults?

    constructor (overrides: Defaults?)
      ensures this.overrides == overrides
    {
      this.overrides := overrides;
    }
  }

  function OverridesOf(binding: Binding?): Defaults?
    reads binding
  {
    if binding == null then null else binding.overrides
  }

  // The call defaults of a provider entry: the Provider's own, overridden by the
  // binding's, if there is one.
  method EntryCallDefaults(defaults: Defaults?, binding: Binding?) returns (callDefaults: Defaults?)
    ensures LayerOf(callDefaults) == Merge(LayerOf(defaults), LayerOf(OverridesOf(binding)))
    ensures LayerOf(defaults) == old(LayerOf(defaults))
    ensures LayerOf(OverridesOf(binding)) == old(LayerOf(OverridesOf(binding)))
    ensures EntryShares(defaults, OverridesOf(binding), callDefaults)
  {
    callDefaults := LayeredCallDefaults(defaults, if binding == null then null else binding.overrides);
  }
}
