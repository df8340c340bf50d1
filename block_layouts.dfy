/**
 * BlockLayouts: the block-layout taxonomy (`flux_fallback_16`, `unet_57`,
 * `flux_transformer_<N>`, `flux_double_<N>`, `flux_te_<N>`), its parser and
 * the helpers that build a layout from an analysis result or a block count.
 */
module BlockLayouts {
  import opened Text

  const FluxFallback16: string := "flux_fallback_16"
  const Unet57: string := "unet_57"

  const TransformerPrefix: string := "flux_transformer_"
  const DoublePrefix: string := "flux_double_"
  const TextEncoderPrefix: string := "flux_te_"

  datatype ParsedLayout = ParsedLayout(layout: string, expectedBlockCount: nat)

  /**
   * The `(\d+)$` tail of the suffix pattern: a non-empty digit run that ends
   * the string, or that is followed only by one final newline (Python's `$`
   * also matches just before a trailing "\n").
   */
  function DigitTail(rest: string): (r: Option<string>)
    ensures r.Some? ==> r.value != [] && AllDigits(r.value)
    ensures r.Some? ==> rest == r.value || rest == r.value + "\n"
  {
    var body := if |rest| > 0 && rest[|rest| - 1] == '\n' then rest[..|rest| - 1] else rest;
    if body != [] && AllDigits(body) then Some(body) else None
  }

  /** Group 1 of `^(flux_(?:transformer|double|te))_(\d+)$`, with its underscore. */
  function MatchedPrefix(layout: string): (r: Option<string>)
    ensures r.Some? ==> StartsWith(layout, r.value) && r.value in {TransformerPrefix, DoublePrefix, TextEncoderPrefix}
  {
    if StartsWith(layout, TransformerPrefix) then Some(TransformerPrefix)
    else if StartsWith(layout, DoublePrefix) then Some(DoublePrefix)
    else if StartsWith(layout, TextEncoderPrefix) then Some(TextEncoderPrefix)
    else None
  }

  /** Group 2 of the same pattern, when the pattern matches. */
  function SuffixDigits(layout: string): (r: Option<string>)
    ensures r.Some? ==> r.value != [] && AllDigits(r.value)
  {
    match MatchedPrefix(layout)
    case None => None
    case Some(p) => DigitTail(layout[|p|..])
  }

  /** `parse_block_layout`: a recognised layout keeps its text and carries its block count. */
  function ParseBlockLayout(layout: Option<string>): (r: Option<ParsedLayout>)
    ensures r.Some? ==> Truthy(layout) && r.value.layout == layout.value
    ensures layout == Some(FluxFallback16) ==> r == Some(ParsedLayout(FluxFallback16, 16))
    ensures layout == Some(Unet57) ==> r == Some(ParsedLayout(Unet57, 57))
  {
    if !Truthy(layout) then None
    else if layout.value == FluxFallback16 then Some(ParsedLayout(layout.value, 16))
    else if layout.value == Unet57 then Some(ParsedLayout(layout.value, 57))
    else
      match SuffixDigits(layout.value)
      case None => None
      case Some(d) => Some(ParsedLayout(layout.value, DigitsValue(d)))
  }

  /** `normalize_block_layout`: a recognised layout unchanged, anything else `None`. */
  function NormalizeBlockLayout(layout: Option<string>): (r: Option<string>)
    ensures r.None? || r == layout
    ensures r.Some? ==> r.value != ""
  {
    match ParseBlockLayout(layout)
    case None => None
    case Some(p) => Some(p.layout)
  }

  /** `expected_block_count_for_layout` */
  function ExpectedBlockCountForLayout(layout: Option<string>): (r: Option<nat>)
    ensures r.Some? <==> NormalizeBlockLayout(layout).Some?
  {
    match ParseBlockLayout(layout)
    case None => None
    case Some(p) => Some(p.expectedBlockCount)
  }

  /** `(lora_type or "").strip().lower()` */
  function NormalizedLoraType(loraType: Option<string>): string
  {
    Lower(Strip(OrEmpty(loraType)))
  }

  /** The rules of `make_flux_layout`, tried in order on the normalised `lora_type`. */
  function FluxLayoutRule(normalized: string, blockCount: nat): (r: Option<string>)
    ensures r.Some? ==> r.value in {TransformerPrefix + NatToString(blockCount),
                                    DoublePrefix + NatToString(blockCount),
                                    TextEncoderPrefix + NatToString(blockCount)}
    ensures r.Some? <==> FluxLayoutPrefix(normalized).Some?
    ensures r.Some? ==> r.value == FluxLayoutPrefix(normalized).value + NatToString(blockCount)
  {
    match FluxLayoutPrefix(normalized)
    case None => None
    case Some(p) => Some(p + NatToString(blockCount))
  }

  /** The layout family the first matching rule picks, as its prefix. */
  function FluxLayoutPrefix(normalized: string): (r: Option<string>)
    ensures r.Some? ==> r.value in {TransformerPrefix, DoublePrefix, TextEncoderPrefix}
  {
    if Contains(normalized, "single_transformer_blocks") then Some(TransformerPrefix)
    else if Contains(normalized, "double+single")
            || (Contains(normalized, "unet") && Contains(normalized, "double") && Contains(normalized, "single")) then
      Some(DoublePrefix)
    else if Contains(normalized, "double_blocks") then Some(DoublePrefix)
    else if Contains(normalized, "text_encoder") || Contains(normalized, "text-encoder") then Some(TextEncoderPrefix)
    else None
  }

  /** `make_flux_layout`: no layout for a non-positive count; otherwise the first matching rule. */
  function MakeFluxLayout(loraType: Option<string>, blockCount: int): (r: Option<string>)
    ensures r.Some? ==> blockCount > 0
    ensures r.Some? ==> r.value in {TransformerPrefix + NatToString(blockCount),
                                    DoublePrefix + NatToString(blockCount),
                                    TextEncoderPrefix + NatToString(blockCount)}
  {
    if blockCount <= 0 then None else FluxLayoutRule(NormalizedLoraType(loraType), blockCount)
  }

  /** `infer_layout_from_block_count` */
  function InferLayoutFromBlockCount(blockCount: int): (r: Option<string>)
    ensures r.Some? <==> blockCount > 0
    ensures blockCount == 57 ==> r == Some(Unet57)
    ensures blockCount > 0 && blockCount != 57 ==> r == Some(TransformerPrefix + NatToString(blockCount))
  {
    if blockCount <= 0 then None
    else if blockCount == 57 then Some(Unet57)
    else Some(TransformerPrefix + NatToString(blockCount))
  }

  // ---------------------------------------------------------------
  // Properties
  // ---------------------------------------------------------------

  /** A prefix followed by the decimal form of `n` parses back to `n`. */
  lemma PrefixedCountParses(prefix: string, n: nat)
    requires prefix in {TransformerPrefix, DoublePrefix, TextEncoderPrefix}
    ensures ParseBlockLayout(Some(prefix + NatToString(n))) == Some(ParsedLayout(prefix + NatToString(n), n))
  {
    var d := NatToString(n);
    var s := prefix + d;
    NatToStringRoundTrip(n);
    assert s[|prefix|..] == d;
    assert s[..|prefix|] == prefix;
    assert s != FluxFallback16 && s != Unet57 by {
      assert s[5] != FluxFallback16[5];
      assert s[0] != Unet57[0];
    }
    assert !(|d| > 0 && d[|d| - 1] == '\n');
    if prefix == DoublePrefix {
      assert !StartsWith(s, TransformerPrefix) by { assert s[5] != TransformerPrefix[5]; }
    } else if prefix == TextEncoderPrefix {
      assert !StartsWith(s, TransformerPrefix) by { assert s[6] != TransformerPrefix[6]; }
      assert !StartsWith(s, DoublePrefix) by { assert s[5] != DoublePrefix[5]; }
    }
  }

  /**
   * Nothing else is recognised: besides the two fixed names, a layout is a
   * known prefix followed by a digit run (and at most one final newline),
   * and it expects the number those digits spell.
   */
  lemma ParsedForms(s: string)
    requires ParseBlockLayout(Some(s)).Some?
    ensures s == FluxFallback16 || s == Unet57
            || (MatchedPrefix(s).Some? && SuffixDigits(s).Some?
                && (s == MatchedPrefix(s).value + SuffixDigits(s).value
                    || s == MatchedPrefix(s).value + SuffixDigits(s).value + "\n")
                && ExpectedBlockCountForLayout(Some(s)) == Some(DigitsValue(SuffixDigits(s).value)))
  {
    if s != FluxFallback16 && s != Unet57 {
      var p := MatchedPrefix(s).value;
      assert s == s[..|p|] + s[|p|..];
      assert s[..|p|] == p;
    }
  }

  /**
   * Every layout that `make_flux_layout` builds is recognised by the parser
   * and expects exactly the block count it was built from.
   */
  lemma MakeFluxLayoutRoundTrip(loraType: Option<string>, blockCount: int)
    requires MakeFluxLayout(loraType, blockCount).Some?
    ensures NormalizeBlockLayout(MakeFluxLayout(loraType, blockCount)) == MakeFluxLayout(loraType, blockCount)
    ensures ExpectedBlockCountForLayout(MakeFluxLayout(loraType, blockCount)) == Some(blockCount)
  {
    var rule := FluxLayoutRule(NormalizedLoraType(loraType), blockCount);
    assert MakeFluxLayout(loraType, blockCount) == rule;
    FluxLayoutRuleRoundTrip(NormalizedLoraType(loraType), blockCount);
  }

  lemma FluxLayoutRuleRoundTrip(normalized: string, n: nat)
    requires FluxLayoutRule(normalized, n).Some?
    ensures NormalizeBlockLayout(FluxLayoutRule(normalized, n)) == FluxLayoutRule(normalized, n)
    ensures ExpectedBlockCountForLayout(FluxLayoutRule(normalized, n)) == Some(n)
  {
    var p := FluxLayoutPrefix(normalized).value;
    PrefixedLayoutRoundTrip(FluxLayoutRule(normalized, n), p, n);
  }

  lemma PrefixedLayoutRoundTrip(layout: Option<string>, prefix: string, n: nat)
    requires prefix in {TransformerPrefix, DoublePrefix, TextEncoderPrefix} && layout == Some(prefix + NatToString(n))
    ensures NormalizeBlockLayout(layout) == layout && ExpectedBlockCountForLayout(layout) == Some(n)
  {
    PrefixedCountParses(prefix, n);
  }

  /** Every inferred layout is recognised and expects the count it was inferred from. */
  lemma InferLayoutRoundTrip(blockCount: int)
    requires blockCount > 0
    ensures NormalizeBlockLayout(InferLayoutFromBlockCount(blockCount)) == InferLayoutFromBlockCount(blockCount)
    ensures ExpectedBlockCountForLayout(InferLayoutFromBlockCount(blockCount)) == Some(blockCount)
  {
    if blockCount != 57 {
      PrefixedCountParses(TransformerPrefix, blockCount);
    }
  }

  /** Normalising twice is normalising once. */
  lemma NormalizeIdempotent(layout: Option<string>)
    ensures NormalizeBlockLayout(NormalizeBlockLayout(layout)) == NormalizeBlockLayout(layout)
  {
  }

  /** Every recognised layout is lower-case, so lower-casing it changes nothing. */
  lemma ParsedIsLowerCase(layout: string)
    requires ParseBlockLayout(Some(layout)).Some?
    ensures IsLowerCase(layout)
  {
    if layout == FluxFallback16 || layout == Unet57 {
      ConstantsAreLowerCase();
    } else {
      SuffixIsLowerCase(layout);
    }
  }

  lemma ConstantsAreLowerCase()
    ensures IsLowerCase(FluxFallback16) && IsLowerCase(Unet57)
  {
  }

  lemma SuffixIsLowerCase(layout: string)
    requires SuffixDigits(layout).Some?
    ensures IsLowerCase(layout)
  {
    PrefixesAreLowerCase();
    PrefixedIsLowerCase(layout, MatchedPrefix(layout).value);
  }

  lemma PrefixesAreLowerCase()
    ensures IsLowerCase(TransformerPrefix) && IsLowerCase(DoublePrefix) && IsLowerCase(TextEncoderPrefix)
  {
  }

  lemma PrefixedIsLowerCase(layout: string, p: string)
    requires StartsWith(layout, p) && IsLowerCase(p) && DigitTail(layout[|p|..]).Some?
    ensures IsLowerCase(layout)
  {
    var rest := layout[|p|..];
    assert layout == p + rest;
    var body := DigitTail(rest).value;
    assert forall i | 0 <= i < |rest| :: IsDigit(rest[i]) || rest[i] == '\n';
  }

  /**
   * The digit run may carry leading zeros and may be followed by one final
   * newline; such a layout is kept as written, so two different normalised
   * texts can name the same block count.
   */
  lemma PatternQuirks()
    ensures ExpectedBlockCountForLayout(Some("flux_te_007")) == Some(7)
    ensures NormalizeBlockLayout(Some("flux_te_007")) == Some("flux_te_007")
    ensures ExpectedBlockCountForLayout(Some("flux_te_7\n")) == Some(7)
    ensures NormalizeBlockLayout(Some("flux_te_7\n")) == Some("flux_te_7\n")
  {
    var a := "flux_te_007";
    assert StartsWith(a, TextEncoderPrefix) && !StartsWith(a, TransformerPrefix) && !StartsWith(a, DoublePrefix);
    assert a[8..] == "007";
    assert DigitsValue("007") == 7 by {
      assert "007"[..2] == "00";
      assert "00"[..1] == "0";
      assert "0"[..0] == "";
    }
    var b := "flux_te_7\n";
    assert StartsWith(b, TextEncoderPrefix) && !StartsWith(b, TransformerPrefix) && !StartsWith(b, DoublePrefix);
    assert b[8..] == "7\n";
    assert "7\n"[..1] == "7";
    assert DigitsValue("7") == 7 by { assert "7"[..0] == ""; }
  }

  /** A label that strips to itself normalises to its lower-case form. */
  lemma NormalizeLabel(t: string, low: string)
    requires Strip(t) == t && Lower(t) == low
    ensures NormalizedLoraType(Some(t)) == low
  {
  }

  lemma ContainsMiddle(a: string, sub: string, b: string)
    ensures Contains(a + sub + b, sub)
  {
    assert (a + sub + b)[|a|..|a| + |sub|] == sub;
    ContainsWitness(a + sub + b, sub, |a|);
  }

  lemma LowerOfTransformerLabel(t: string)
    requires t == "Flux (single_transformer_blocks)"
    ensures Lower(t) == "flux (" + "single_transformer_blocks" + ")"
  {
  }

  lemma RuleOnTransformerLabel(n: nat)
    ensures FluxLayoutRule("flux (" + "single_transformer_blocks" + ")", n) == Some(TransformerPrefix + NatToString(n))
  {
    ContainsMiddle("flux (", "single_transformer_blocks", ")");
  }

  /** `make_flux_layout` on the delta inspector's single-transformer label. */
  lemma MakeFluxLayoutOfTransformerLabel(n: nat)
    requires n > 0
    ensures MakeFluxLayout(Some("Flux (single_transformer_blocks)"), n) == Some(TransformerPrefix + NatToString(n))
  {
    StripNoSpace("Flux (single_transformer_blocks)");
    LowerOfTransformerLabel("Flux (single_transformer_blocks)");
    NormalizeLabel("Flux (single_transformer_blocks)", "flux (" + "single_transformer_blocks" + ")");
    RuleOnTransformerLabel(n);
  }

  lemma LowerOfUnet57Label(t: string)
    requires t == "Flux (UNet double+single blocks)"
    ensures Lower(t) == "flux (unet " + "double+single" + " blocks)"
  {
  }

  lemma RuleOnUnet57Label(n: nat)
    ensures FluxLayoutRule("flux (unet " + "double+single" + " blocks)", n) == Some(DoublePrefix + NatToString(n))
  {
    ContainsMiddle("flux (unet ", "double+single", " blocks)");
    NotContainsByChar("flux (unet " + "double+single" + " blocks)", "single_transformer_blocks", 6);
  }

  /** `make_flux_layout` on the delta inspector's double+single label. */
  lemma MakeFluxLayoutOfUnet57Label(n: nat)
    requires n > 0
    ensures MakeFluxLayout(Some("Flux (UNet double+single blocks)"), n) == Some(DoublePrefix + NatToString(n))
  {
    StripNoSpace("Flux (UNet double+single blocks)");
    LowerOfUnet57Label("Flux (UNet double+single blocks)");
    NormalizeLabel("Flux (UNet double+single blocks)", "flux (unet " + "double+single" + " blocks)");
    RuleOnUnet57Label(n);
  }

  lemma LowerOfDoubleLabel(t: string)
    requires t == "Flux (UNet double_blocks)"
    ensures Lower(t) == "flux (unet " + "double_blocks" + ")"
  {
  }

  lemma RuleOnDoubleLabel(n: nat)
    ensures FluxLayoutRule("flux (unet " + "double_blocks" + ")", n) == Some(DoublePrefix + NatToString(n))
  {
    ContainsMiddle("flux (unet ", "double_blocks", ")");
    NotContainsByChar("flux (unet " + "double_blocks" + ")", "single_transformer_blocks", 1);
    NotContainsByChar("flux (unet " + "double_blocks" + ")", "double+single", 6);
    NotContainsByChar("flux (unet " + "double_blocks" + ")", "single", 1);
  }

  /** `make_flux_layout` on the delta inspector's double-blocks label. */
  lemma MakeFluxLayoutOfDoubleLabel(n: nat)
    requires n > 0
    ensures MakeFluxLayout(Some("Flux (UNet double_blocks)"), n) == Some(DoublePrefix + NatToString(n))
  {
    StripNoSpace("Flux (UNet double_blocks)");
    LowerOfDoubleLabel("Flux (UNet double_blocks)");
    NormalizeLabel("Flux (UNet double_blocks)", "flux (unet " + "double_blocks" + ")");
    RuleOnDoubleLabel(n);
  }

  lemma LowerOfTextEncoderLabel(t: string)
    requires t == "Flux (text-encoder only)"
    ensures Lower(t) == "flux (" + "text-encoder" + " only)"
  {
  }

  /** The text-encoder label has no 'b' (so no "double" and no "blocks") and no '_'. */
  lemma TextEncoderLabelMisses()
    ensures !Contains("flux (" + "text-encoder" + " only)", "single_transformer_blocks")
    ensures !Contains("flux (" + "text-encoder" + " only)", "double+single")
    ensures !Contains("flux (" + "text-encoder" + " only)", "double")
    ensures !Contains("flux (" + "text-encoder" + " only)", "double_blocks")
    ensures !Contains("flux (" + "text-encoder" + " only)", "text_encoder")
  {
    var l := "flux (" + "text-encoder" + " only)";
    assert Lacks(l, 'b') && Lacks(l, '_');
    NotContainsByChar(l, "single_transformer_blocks", 19);
    NotContainsByChar(l, "double+single", 3);
    NotContainsByChar(l, "double", 3);
    NotContainsByChar(l, "double_blocks", 3);
    NotContainsByChar(l, "text_encoder", 4);
  }

  lemma RuleOnTextEncoderLabel(n: nat)
    ensures FluxLayoutRule("flux (" + "text-encoder" + " only)", n) == Some(TextEncoderPrefix + NatToString(n))
  {
    ContainsMiddle("flux (", "text-encoder", " only)");
    TextEncoderLabelMisses();
  }

  /** `make_flux_layout` on the delta inspector's text-encoder label. */
  lemma MakeFluxLayoutOfTextEncoderLabel(n: nat)
    requires n > 0
    ensures MakeFluxLayout(Some("Flux (text-encoder only)"), n) == Some(TextEncoderPrefix + NatToString(n))
  {
    StripNoSpace("Flux (text-encoder only)");
    LowerOfTextEncoderLabel("Flux (text-encoder only)");
    NormalizeLabel("Flux (text-encoder only)", "flux (" + "text-encoder" + " only)");
    RuleOnTextEncoderLabel(n);
  }

  /** Without a `lora_type` no rule applies. */
  lemma MakeFluxLayoutOfNoType(n: int)
    ensures MakeFluxLayout(None, n) == None
  {
    assert NormalizedLoraType(None) == "";
    NotContainsByChar("", "single_transformer_blocks", 0);
    NotContainsByChar("", "double+single", 0);
    NotContainsByChar("", "unet", 0);
    NotContainsByChar("", "double_blocks", 0);
    NotContainsByChar("", "text_encoder", 0);
    NotContainsByChar("", "text-encoder", 0);
  }
}
