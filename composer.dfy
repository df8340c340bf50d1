/**
 * Composer: combining several LoRAs of one layout into one block-weight
 * vector. Compatibility is set equality of the (upper-cased) base model
 * codes and the (lower-cased) layouts; the combined vector is the
 * strength-weighted average of the block vectors, block by block, with no
 * further scaling. Rounding is the abstract function `round`.
 */
module Composer {
  import opened Text
  import opened Numeric
  import opened BlockLayouts

  /** `LoRAComposeInput` */
  datatype ComposeInput = ComposeInput(
    stableId: string,
    baseModelCode: Option<string>,
    blockLayout: Option<string>,
    blockWeights: seq<real>)

  /** The per-LoRA request settings; a missing entry takes its default. */
  datatype LoraSettings = LoraSettings(
    strengthModel: Option<real>,
    affectClip: Option<bool>,
    strengthClip: Option<real>,
    a: Option<real>,
    b: Option<real>)

  const NoSettings := LoraSettings(None, None, None, None, None)

  // ---------------------------------------------------------------
  // A/B support and compatibility
  // ---------------------------------------------------------------

  /** `layout_supports_ab` */
  predicate LayoutSupportsAb(blockLayout: Option<string>)
  {
    if !Truthy(blockLayout) then false
    else
      var layout := Lower(blockLayout.value);
      !StartsWith(layout, TransformerPrefix) && !StartsWith(layout, TextEncoderPrefix) && layout != FluxFallback16
  }

  /**
   * Among the layouts the block-layout parser recognises, exactly `unet_57`
   * and the `flux_double_N` layouts carry A/B values.
   */
  lemma LayoutSupportsAbOnParsed(layout: string)
    requires ParseBlockLayout(Some(layout)).Some?
    ensures LayoutSupportsAb(Some(layout)) <==> layout == Unet57 || StartsWith(layout, DoublePrefix)
  {
    ParsedIsLowerCase(layout);
    LowerOfLowerCase(layout);
    if layout == FluxFallback16 {
      assert layout[0] == 'f' && layout[5] == 'f';
      assert !StartsWith(layout, DoublePrefix) by { assert layout[..12][5] == layout[5]; }
    } else if layout == Unet57 {
      assert layout[0] == 'u';
      assert !StartsWith(layout, TransformerPrefix) && !StartsWith(layout, TextEncoderPrefix);
    } else if StartsWith(layout, TransformerPrefix) {
      assert layout[..17][5] == layout[5];
      assert !StartsWith(layout, DoublePrefix) by { assert layout[..12][5] == layout[5]; }
    } else if StartsWith(layout, DoublePrefix) {
      assert layout[..12][5] == layout[5];
      assert !StartsWith(layout, TextEncoderPrefix) by { assert layout[..8][5] == layout[5]; }
      assert layout != FluxFallback16 by { assert FluxFallback16[5] == 'f'; }
    }
  }

  datatype Validation = Validation(
    compatible: bool,
    reasons: seq<string>,
    validatedBaseModel: Option<string>,
    validatedLayout: Option<string>)

  const NoLorasReason := "No LoRAs available for validation."
  const BaseMismatchReason := "Selected LoRAs have mismatched base_model_code values."
  const LayoutMismatchReason := "Selected LoRAs have mismatched block_layout values."

  function BaseKey(l: ComposeInput): string { Upper(OrEmpty(l.baseModelCode)) }
  function LayoutKey(l: ComposeInput): string { Lower(OrEmpty(l.blockLayout)) }

  /** The distinct values of a list (a set comprehension). */
  function ValueSet(keys: seq<string>): set<string>
  {
    set i | 0 <= i < |keys| :: keys[i]
  }

  function BaseKeys(loras: seq<ComposeInput>): seq<string>
  {
    seq(|loras|, i requires 0 <= i < |loras| => BaseKey(loras[i]))
  }

  function LayoutKeys(loras: seq<ComposeInput>): seq<string>
  {
    seq(|loras|, i requires 0 <= i < |loras| => LayoutKey(loras[i]))
  }

  /** `{(l.base_model_code or "").upper() for l in loras}` */
  function BaseModels(loras: seq<ComposeInput>): set<string>
  {
    ValueSet(BaseKeys(loras))
  }

  /** `{(l.block_layout or "").lower() for l in loras}` */
  function Layouts(loras: seq<ComposeInput>): set<string>
  {
    ValueSet(LayoutKeys(loras))
  }

  /** `x or None` for a string */
  function NoneIfEmpty(s: string): (r: Option<string>)
    ensures r.Some? <==> s != ""
    ensures r.Some? ==> r.value == s
  {
    if s == "" then None else Some(s)
  }

  /** `validate_compatibility`; the sole element of a one-element set is the first LoRA's value. */
  function ValidateCompatibility(loras: seq<ComposeInput>): (v: Validation)
    ensures v.compatible <==> v.reasons == []
    ensures !v.compatible ==> v.validatedBaseModel.None? && v.validatedLayout.None?
    ensures loras == [] ==> v == Validation(false, [NoLorasReason], None, None)
  {
    if loras == [] then Validation(false, [NoLorasReason], None, None)
    else
      var reasons :=
        (if |BaseModels(loras)| != 1 then [BaseMismatchReason] else [])
        + (if |Layouts(loras)| != 1 then [LayoutMismatchReason] else []);
      if reasons == [] then
        Validation(true, [], NoneIfEmpty(BaseKey(loras[0])), NoneIfEmpty(LayoutKey(loras[0])))
      else Validation(false, reasons, None, None)
  }

  /** A list's values form a one-element set exactly when they all equal the first. */
  lemma SingleValueIffAllEqual(keys: seq<string>)
    requires keys != []
    ensures |ValueSet(keys)| == 1 <==> forall i | 0 <= i < |keys| :: keys[i] == keys[0]
    ensures |ValueSet(keys)| == 1 ==> ValueSet(keys) == {keys[0]}
  {
    var vs := ValueSet(keys);
    assert keys[0] in vs;
    if forall i | 0 <= i < |keys| :: keys[i] == keys[0] {
      assert vs == {keys[0]};
    } else {
      var i :| 0 <= i < |keys| && keys[i] != keys[0];
      assert keys[i] in vs;
      assert vs == (vs - {keys[0]}) + {keys[0]};
      assert keys[i] in vs - {keys[0]};
      assert |vs| >= 2;
    }
  }

  /**
   * Compatibility holds exactly when every LoRA has the first one's base
   * model code and layout (up to case); the validated values are then those
   * shared values, or `None` when they are empty.
   */
  lemma CompatibleIffAllAgree(loras: seq<ComposeInput>)
    requires loras != []
    ensures ValidateCompatibility(loras).compatible <==>
      (forall i | 0 <= i < |loras| :: BaseKey(loras[i]) == BaseKey(loras[0]) && LayoutKey(loras[i]) == LayoutKey(loras[0]))
    ensures ValidateCompatibility(loras).compatible ==>
      BaseModels(loras) == {BaseKey(loras[0])} && Layouts(loras) == {LayoutKey(loras[0])}
      && ValidateCompatibility(loras).validatedBaseModel == NoneIfEmpty(BaseKey(loras[0]))
      && ValidateCompatibility(loras).validatedLayout == NoneIfEmpty(LayoutKey(loras[0]))
  {
    SingleValueIffAllEqual(BaseKeys(loras));
    SingleValueIffAllEqual(LayoutKeys(loras));
    assert forall i | 0 <= i < |loras| :: BaseKeys(loras)[i] == BaseKey(loras[i]) && LayoutKeys(loras)[i] == LayoutKey(loras[i]);
  }

  /** Two LoRAs of different layouts are not compatible, and the reasons say so. */
  lemma LayoutMismatchRejected(loras: seq<ComposeInput>, i: nat)
    requires i < |loras| && LayoutKey(loras[i]) != LayoutKey(loras[0])
    ensures !ValidateCompatibility(loras).compatible
    ensures LayoutMismatchReason in ValidateCompatibility(loras).reasons
  {
    SingleValueIffAllEqual(LayoutKeys(loras));
    assert LayoutKeys(loras)[i] != LayoutKeys(loras)[0];
  }

  /** Two LoRAs of different base models are not compatible, and the reasons say so. */
  lemma BaseMismatchRejected(loras: seq<ComposeInput>, i: nat)
    requires i < |loras| && BaseKey(loras[i]) != BaseKey(loras[0])
    ensures !ValidateCompatibility(loras).compatible
    ensures BaseMismatchReason in ValidateCompatibility(loras).reasons
  {
    SingleValueIffAllEqual(BaseKeys(loras));
    assert BaseKeys(loras)[i] != BaseKeys(loras)[0];
  }

  // ---------------------------------------------------------------
  // The weighted average
  // ---------------------------------------------------------------

  function SettingsFor(perLora: map<string, LoraSettings>, stableId: string): LoraSettings
  {
    if stableId in perLora then perLora[stableId] else NoSettings
  }

  function OrDefault(x: Option<real>, d: real): real
  {
    if x.Some? then x.value else d
  }

  /** The `strength_model` of each LoRA, 1.0 by default. */
  function ModelStrengths(included: seq<ComposeInput>, perLora: map<string, LoraSettings>): (r: seq<real>)
    ensures |r| == |included|
  {
    seq(|included|, i requires 0 <= i < |included| => OrDefault(SettingsFor(perLora, included[i].stableId).strengthModel, 1.0))
  }

  /** Every block vector has `n` entries. */
  predicate SameLength(included: seq<ComposeInput>, n: nat)
  {
    forall i | 0 <= i < |included| :: |included[i].blockWeights| == n
  }

  /** Σ_pos included[pos].blockWeights[idx] · strengths[pos], left to right. */
  function WeightedSum(included: seq<ComposeInput>, strengths: seq<real>, idx: nat): real
    requires |strengths| == |included|
    requires forall i | 0 <= i < |included| :: idx < |included[i].blockWeights|
    decreases |included|
  {
    if included == [] then 0.0
    else
      var k := |included| - 1;
      WeightedSum(included[..k], strengths[..k], idx) + included[k].blockWeights[idx] * strengths[k]
  }

  /** The combined model weights: the weighted average per block, or zeros when the strengths sum to 0. */
  function CombinedModel(included: seq<ComposeInput>, strengths: seq<real>, n: nat): (r: seq<real>)
    requires |strengths| == |included| && SameLength(included, n)
    ensures |r| == n
  {
    var denom := Sum(strengths);
    if denom == 0.0 then Zeros(n)
    else seq(n, idx requires 0 <= idx < n => WeightedSum(included, strengths, idx) / denom)
  }

  /** A LoRA takes part in the CLIP combine when `affect_clip` (default true) holds and `strength_clip` (default 0) is not 0. */
  predicate IsClipContributor(s: LoraSettings)
  {
    (s.affectClip.None? || s.affectClip.value) && OrDefault(s.strengthClip, 0.0) != 0.0
  }

  /** The `strength_clip` of the CLIP contributors, in order. */
  function ClipStrengths(included: seq<ComposeInput>, perLora: map<string, LoraSettings>): (r: seq<real>)
    ensures forall i | 0 <= i < |r| :: r[i] != 0.0
    decreases |included|
  {
    if included == [] then []
    else
      var k := |included| - 1;
      var s := SettingsFor(perLora, included[k].stableId);
      ClipStrengths(included[..k], perLora) + (if IsClipContributor(s) then [OrDefault(s.strengthClip, 0.0)] else [])
  }

  datatype Param = ParamA | ParamB

  function ParamOf(s: LoraSettings, p: Param): real
  {
    match p
    case ParamA => OrDefault(s.a, 1.0)
    case ParamB => OrDefault(s.b, 1.0)
  }

  /** Σ_pos param(pos) · strengths[pos] for A or B (each 1.0 by default). */
  function ParamSum(included: seq<ComposeInput>, perLora: map<string, LoraSettings>, strengths: seq<real>, p: Param): real
    requires |strengths| == |included|
    decreases |included|
  {
    if included == [] then 0.0
    else
      var k := |included| - 1;
      ParamSum(included[..k], perLora, strengths[..k], p) + ParamOf(SettingsFor(perLora, included[k].stableId), p) * strengths[k]
  }

  /** The combined A or B before rounding: `None` unless the layout supports them. */
  function CombinedParam(included: seq<ComposeInput>, perLora: map<string, LoraSettings>, strengths: seq<real>,
                         validatedLayout: Option<string>, p: Param): (r: Option<real>)
    requires |strengths| == |included|
    ensures r.Some? <==> LayoutSupportsAb(validatedLayout)
  {
    if !LayoutSupportsAb(validatedLayout) then None
    else if Sum(strengths) == 0.0 then Some(0.0)
    else Some(ParamSum(included, perLora, strengths, p) / Sum(strengths))
  }

  function RoundAll(round: real -> real, s: seq<real>): (r: seq<real>)
    ensures |r| == |s|
  {
    seq(|s|, i requires 0 <= i < |s| => round(s[i]))
  }

  function RoundOpt(round: real -> real, x: Option<real>): Option<real>
  {
    if x.Some? then Some(round(x.value)) else None
  }

  /** The `combined` payload (the CSV text, a formatting of `blockWeights`, is not modelled). */
  datatype Combined = Combined(
    strengthModel: real,
    strengthClip: Option<real>,
    a: Option<real>,
    b: Option<real>,
    blockWeights: seq<real>)

  datatype CombineOutcome = CombineOutcome(warnings: seq<string>, combined: Combined)

  const NothingToCombineWarning := "No LoRAs available to combine."
  const LengthMismatchError := "Included LoRAs have different block weight lengths."
  const ZeroModelWarning := "Sum of strength_model values is 0; returned all-zero combined model weights."
  const ZeroClipWarning := "Sum of eligible strength_clip values is 0; returned all-zero clip weights."
  const NoClipWarning := "No LoRAs contributed to CLIP combine; combined CLIP weights were returned as null."

  /** The warnings of a non-empty combine, in the order they are appended. */
  function CombineWarnings(modelDenom: real, clipStrengths: seq<real>): seq<string>
  {
    (if modelDenom == 0.0 then [ZeroModelWarning] else [])
    + (if clipStrengths == [] then [NoClipWarning]
       else if Sum(clipStrengths) == 0.0 then [ZeroClipWarning] else [])
  }

  /** What `combine_weights_weighted_average` returns, or the `ValueError` it raises. */
  function Combine(included: seq<ComposeInput>, perLora: map<string, LoraSettings>,
                   validatedLayout: Option<string>, round: real -> real): (r: Result<CombineOutcome, string>)
    ensures r.Err? <==> included != [] && !SameLength(included, |included[0].blockWeights|)
    ensures r.Err? ==> r.error == LengthMismatchError
    ensures r.Ok? ==> r.value.combined.strengthModel == 1.0
    ensures r.Ok? && included != [] ==> (r.value.combined.a.Some? <==> LayoutSupportsAb(validatedLayout))
    ensures r.Ok? && included != [] ==> |r.value.combined.blockWeights| == |included[0].blockWeights|
    ensures included == [] ==> r == Ok(CombineOutcome([NothingToCombineWarning], Combined(1.0, None, None, None, [])))
  {
    if included == [] then Ok(CombineOutcome([NothingToCombineWarning], Combined(1.0, None, None, None, [])))
    else
      var n := |included[0].blockWeights|;
      if !SameLength(included, n) then Err(LengthMismatchError)
      else
        var strengths := ModelStrengths(included, perLora);
        var clip := ClipStrengths(included, perLora);
        Ok(CombineOutcome(
          CombineWarnings(Sum(strengths), clip),
          Combined(
            1.0,
            if clip == [] then None else Some(0.0),
            RoundOpt(round, CombinedParam(included, perLora, strengths, validatedLayout, ParamA)),
            RoundOpt(round, CombinedParam(included, perLora, strengths, validatedLayout, ParamB)),
            RoundAll(round, CombinedModel(included, strengths, n)))))
  }

  /** `combine_weights_weighted_average` */
  method CombineWeightsWeightedAverage(included: seq<ComposeInput>, perLora: map<string, LoraSettings>,
                                       validatedLayout: Option<string>, round: real -> real)
    returns (r: Result<CombineOutcome, string>)
    ensures r == Combine(included, perLora, validatedLayout, round)
  {
    if included == [] {
      return Ok(CombineOutcome([NothingToCombineWarning], Combined(1.0, None, None, None, [])));
    }
    var expectedLen := |included[0].blockWeights|;
    var i := 0;
    while i < |included|
      invariant 0 <= i <= |included|
      invariant SameLength(included[..i], expectedLen)
    {
      if |included[i].blockWeights| != expectedLen {
        return Err(LengthMismatchError);
      }
      i := i + 1;
    }
    assert included[..i] == included;
    var warnings: seq<string> := [];
    var modelStrengths := ModelStrengths(included, perLora);
    var modelDenom := Sum(modelStrengths);
    var combinedModel := WeightedAverageLoop(included, modelStrengths, expectedLen);
    if modelDenom == 0.0 {
      warnings := warnings + [ZeroModelWarning];
    }
    var clipStrengths := CollectClipStrengths(included, perLora);
    var strengthClip: Option<real> := None;
    if clipStrengths != [] {
      strengthClip := Some(0.0);
      var clipDenom := Sum(clipStrengths);
      if clipDenom == 0.0 {
        warnings := warnings + [ZeroClipWarning];
      }
    } else {
      warnings := warnings + [NoClipWarning];
    }
    var combinedA := CombinedParam(included, perLora, modelStrengths, validatedLayout, ParamA);
    var combinedB := CombinedParam(included, perLora, modelStrengths, validatedLayout, ParamB);
    assert warnings == CombineWarnings(modelDenom, clipStrengths);
    assert SameLength(included, expectedLen);
    r := Ok(CombineOutcome(warnings, Combined(1.0, strengthClip, RoundOpt(round, combinedA), RoundOpt(round, combinedB),
                                              RoundAll(round, combinedModel))));
  }

  /** The `combined_model` loop: one weighted average per block, or zeros. */
  method WeightedAverageLoop(included: seq<ComposeInput>, strengths: seq<real>, n: nat) returns (combined: seq<real>)
    requires |strengths| == |included| && SameLength(included, n)
    ensures combined == CombinedModel(included, strengths, n)
  {
    var denom := Sum(strengths);
    if denom == 0.0 {
      return Zeros(n);
    }
    combined := [];
    var idx := 0;
    while idx < n
      invariant 0 <= idx <= n
      invariant |combined| == idx
      invariant forall j | 0 <= j < idx :: combined[j] == WeightedSum(included, strengths, j) / denom
    {
      combined := combined + [WeightedSum(included, strengths, idx) / denom];
      idx := idx + 1;
    }
  }

  /** The `clip_contributors` loop, keeping each contributor's `strength_clip`. */
  method CollectClipStrengths(included: seq<ComposeInput>, perLora: map<string, LoraSettings>) returns (clip: seq<real>)
    ensures clip == ClipStrengths(included, perLora)
  {
    clip := [];
    var i := 0;
    while i < |included|
      invariant 0 <= i <= |included|
      invariant clip == ClipStrengths(included[..i], perLora)
    {
      assert included[..i + 1][..i] == included[..i];
      var cfg := SettingsFor(perLora, included[i].stableId);
      if IsClipContributor(cfg) {
        clip := clip + [OrDefault(cfg.strengthClip, 0.0)];
      }
      i := i + 1;
    }
    assert included[..i] == included;
  }

  // ---------------------------------------------------------------
  // Properties of the combine
  // ---------------------------------------------------------------

  lemma MulMonotone(a: real, b: real, s: real)
    requires a <= b && s >= 0.0
    ensures a * s <= b * s
  {
    assert (b - a) * s >= 0.0;
  }

  /** With non-negative strengths, each weighted sum lies between lo·Σs and hi·Σs. */
  lemma {:induction false} WeightedSumBounds(included: seq<ComposeInput>, strengths: seq<real>, idx: nat, lo: real, hi: real)
    requires |strengths| == |included| && AllNonNegative(strengths)
    requires forall i | 0 <= i < |included| :: idx < |included[i].blockWeights|
    requires forall i | 0 <= i < |included| :: lo <= included[i].blockWeights[idx] <= hi
    ensures lo * Sum(strengths) <= WeightedSum(included, strengths, idx)
    ensures WeightedSum(included, strengths, idx) <= hi * Sum(strengths)
    decreases |included|
  {
    if included != [] {
      var k := |included| - 1;
      assert strengths[..k] == strengths[..|strengths| - 1];
      WeightedSumBounds(included[..k], strengths[..k], idx, lo, hi);
      MulMonotone(lo, included[k].blockWeights[idx], strengths[k]);
      MulMonotone(included[k].blockWeights[idx], hi, strengths[k]);
    }
  }

  lemma DivideAbove(x: real, d: real, lo: real)
    requires d > 0.0 && lo * d <= x
    ensures lo <= x / d
  {
    assert x / d * d == x;
  }

  lemma DivideBelow(x: real, d: real, hi: real)
    requires d > 0.0 && x <= hi * d
    ensures x / d <= hi
  {
    assert x / d * d == x;
  }

  /**
   * The combined model is a convex combination: with non-negative strengths
   * that do not all vanish, each combined block lies between the smallest and
   * largest weight of that block.
   */
  lemma CombinedModelBetween(included: seq<ComposeInput>, strengths: seq<real>, n: nat, idx: nat, lo: real, hi: real)
    requires |strengths| == |included| && SameLength(included, n) && idx < n
    requires AllNonNegative(strengths) && Sum(strengths) != 0.0
    requires forall i | 0 <= i < |included| :: lo <= included[i].blockWeights[idx] <= hi
    ensures lo <= CombinedModel(included, strengths, n)[idx] <= hi
  {
    CombinedEntry(included, strengths, n, idx);
    WeightedAverageBetween(included, strengths, idx, lo, hi);
  }

  lemma WeightedAverageBetween(included: seq<ComposeInput>, strengths: seq<real>, idx: nat, lo: real, hi: real)
    requires |strengths| == |included| && AllNonNegative(strengths) && Sum(strengths) != 0.0
    requires forall i | 0 <= i < |included| :: idx < |included[i].blockWeights|
    requires forall i | 0 <= i < |included| :: lo <= included[i].blockWeights[idx] <= hi
    ensures lo <= WeightedSum(included, strengths, idx) / Sum(strengths) <= hi
  {
    SumNonNegative(strengths);
    WeightedSumBounds(included, strengths, idx, lo, hi);
    DivideAbove(WeightedSum(included, strengths, idx), Sum(strengths), lo);
    DivideBelow(WeightedSum(included, strengths, idx), Sum(strengths), hi);
  }

  /** When every block vector has the same entry at `idx`, the weighted sum is that entry times Σs. */
  lemma {:induction false} WeightedSumOfEqual(included: seq<ComposeInput>, strengths: seq<real>, idx: nat, w: real)
    requires |strengths| == |included|
    requires forall i | 0 <= i < |included| :: idx < |included[i].blockWeights| && included[i].blockWeights[idx] == w
    ensures WeightedSum(included, strengths, idx) == w * Sum(strengths)
    decreases |included|
  {
    if included != [] {
      var k := |included| - 1;
      assert strengths[..k] == strengths[..|strengths| - 1];
      WeightedSumOfEqual(included[..k], strengths[..k], idx, w);
    }
  }

  /** Combining copies of one vector gives that vector back, whatever the (non-cancelling) strengths. */
  lemma CombineCopies(included: seq<ComposeInput>, strengths: seq<real>, v: seq<real>)
    requires |strengths| == |included| && Sum(strengths) != 0.0
    requires forall i | 0 <= i < |included| :: included[i].blockWeights == v
    ensures CombinedModel(included, strengths, |v|) == v
  {
    forall idx | 0 <= idx < |v| ensures CombinedModel(included, strengths, |v|)[idx] == v[idx] {
      CombinedEntry(included, strengths, |v|, idx);
      CopiesAverage(included, strengths, idx, v[idx]);
    }
  }

  /** The weighted average of equal entries is that entry. */
  lemma CopiesAverage(included: seq<ComposeInput>, strengths: seq<real>, idx: nat, w: real)
    requires |strengths| == |included| && Sum(strengths) != 0.0
    requires forall i | 0 <= i < |included| :: idx < |included[i].blockWeights| && included[i].blockWeights[idx] == w
    ensures WeightedSum(included, strengths, idx) / Sum(strengths) == w
  {
    WeightedSumOfEqual(included, strengths, idx, w);
    MulDivCancel(w, Sum(strengths));
  }

  /** Entry `idx` of the combined model, when the strengths do not sum to 0. */
  lemma CombinedEntry(included: seq<ComposeInput>, strengths: seq<real>, n: nat, idx: nat)
    requires |strengths| == |included| && SameLength(included, n) && idx < n && Sum(strengths) != 0.0
    ensures CombinedModel(included, strengths, n)[idx] == WeightedSum(included, strengths, idx) / Sum(strengths)
  {
  }

  lemma MulDivCancel(w: real, d: real)
    requires d != 0.0
    ensures w * d / d == w
  {
  }

  /** Strengths that sum to 0 give all-zero weights and the zero-strength warning. */
  lemma ZeroStrengthsGiveZeros(included: seq<ComposeInput>, perLora: map<string, LoraSettings>,
                               validatedLayout: Option<string>, round: real -> real)
    requires included != [] && SameLength(included, |included[0].blockWeights|)
    requires Sum(ModelStrengths(included, perLora)) == 0.0
    ensures Combine(included, perLora, validatedLayout, round).Ok?
    ensures Combine(included, perLora, validatedLayout, round).value.combined.blockWeights
      == RoundAll(round, Zeros(|included[0].blockWeights|))
    ensures Combine(included, perLora, validatedLayout, round).value.warnings[0] == ZeroModelWarning
  {
  }

  /** With no CLIP contributor, `strength_clip` is `None` and the no-CLIP warning is given. */
  lemma NoClipContributors(included: seq<ComposeInput>, perLora: map<string, LoraSettings>,
                           validatedLayout: Option<string>, round: real -> real)
    requires included != [] && SameLength(included, |included[0].blockWeights|)
    requires forall i | 0 <= i < |included| :: !IsClipContributor(SettingsFor(perLora, included[i].stableId))
    ensures Combine(included, perLora, validatedLayout, round).Ok?
    ensures Combine(included, perLora, validatedLayout, round).value.combined.strengthClip.None?
    ensures NoClipWarning in Combine(included, perLora, validatedLayout, round).value.warnings
  {
    NoContributorsNoStrengths(included, perLora);
  }

  lemma {:induction false} NoContributorsNoStrengths(included: seq<ComposeInput>, perLora: map<string, LoraSettings>)
    requires forall i | 0 <= i < |included| :: !IsClipContributor(SettingsFor(perLora, included[i].stableId))
    ensures ClipStrengths(included, perLora) == []
    decreases |included|
  {
    if included != [] {
      var k := |included| - 1;
      NoContributorsNoStrengths(included[..k], perLora);
    }
  }

  /** Two LoRAs with strengths 1 and 3: [0.2, 0.4, 0.6] and [0.6, 0.8, 1.0] combine to [0.5, 0.7, 0.9]. */
  lemma CombineExample()
    ensures var included := [ComposeInput("A", Some("FLX"), Some("flux_transformer_3"), [0.2, 0.4, 0.6]),
                             ComposeInput("B", Some("FLX"), Some("flux_transformer_3"), [0.6, 0.8, 1.0])];
      CombinedModel(included, [1.0, 3.0], 3) == [0.5, 0.7, 0.9]
  {
    var included := [ComposeInput("A", Some("FLX"), Some("flux_transformer_3"), [0.2, 0.4, 0.6]),
                     ComposeInput("B", Some("FLX"), Some("flux_transformer_3"), [0.6, 0.8, 1.0])];
    var s := [1.0, 3.0];
    assert s[..1] == [1.0] && [1.0][..0] == [];
    assert Sum(s) == 4.0;
    assert included[..1][..0] == [];
    assert WeightedSum(included, s, 0) == 2.0;
    assert WeightedSum(included, s, 1) == 2.8;
    assert WeightedSum(included, s, 2) == 3.6;
  }
}
