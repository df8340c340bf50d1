/**
 * The profile builder: the first-match bucket detection of
 * `_detect_bucket`, the block statistics of `build_profile_for_lora`
 * and the file-name split used for the profile's stem.
 */
module ProfileBuilder {
  import opened Text
  import opened Numeric
  import Skeleton = CatalogSkeleton
  import DI = DeltaInspector
  import UB = UnetBlocks

  // ---------------------------------------------------------------
  // Buckets
  // ---------------------------------------------------------------

  /** The keys of `PROFILE_BUCKETS`. */
  datatype ProfileBucket =
    | FluxBucket | FluxKreaBucket | IllustriousBucket | PonyBucket | SdBucket
    | SdxlBucket | Wan21Bucket | Wan22Bucket | OtherBucket

  /** The value `PROFILE_BUCKETS` gives each key: the directory the profile is stored under. */
  function BucketName(b: ProfileBucket): string
  {
    match b
    case FluxBucket => "flux"
    case FluxKreaBucket => "flux_krea"
    case IllustriousBucket => "illustrious"
    case PonyBucket => "pony"
    case SdBucket => "sd"
    case SdxlBucket => "sdxl"
    case Wan21Bucket => "wan21"
    case Wan22Bucket => "wan22"
    case OtherBucket => "other"
  }

  const ProfileBucketValues: set<string> :=
    {"flux", "flux_krea", "illustrious", "pony", "sd", "sdxl", "wan21", "wan22", "other"}

  /** Every bucket the builder stores under is one of the configured bucket directories, and no two share one. */
  lemma BucketNamesAreProfileBuckets(a: ProfileBucket, b: ProfileBucket)
    ensures BucketName(a) in ProfileBucketValues
    ensures BucketName(a) == BucketName(b) ==> a == b
    ensures BucketName(a) != "" && Lacks(BucketName(a), '/')
  {
  }

  /** The human-facing label of every bucket except the catch-all. */
  function FamilyLabel(b: ProfileBucket): string
  {
    match b
    case FluxBucket => "Flux"
    case FluxKreaBucket => "Flux (Krea)"
    case IllustriousBucket => "Illustrious"
    case PonyBucket => "Pony"
    case SdBucket => "SD 1.x"
    case SdxlBucket => "SDXL"
    case Wan21Bucket => "WAN 2.1"
    case Wan22Bucket => "WAN 2.2"
    case OtherBucket => "Unknown"
  }

  // ---------------------------------------------------------------
  // Name rules, in the order they are tried
  // ---------------------------------------------------------------

  /** The buckets chosen by a substring of the file name, with the position of their rule. */
  function RuleRank(b: ProfileBucket): Option<nat>
  {
    match b
    case PonyBucket => Some(0)
    case Wan22Bucket => Some(1)
    case Wan21Bucket => Some(2)
    case SdxlBucket => Some(3)
    case SdBucket => Some(4)
    case FluxKreaBucket => Some(5)
    case IllustriousBucket => Some(6)
    case FluxBucket => None
    case OtherBucket => None
  }

  /** Whether the rule of bucket `b` fires on the lower-cased file name. */
  predicate RuleMatches(b: ProfileBucket, name: string)
  {
    match b
    case PonyBucket => Contains(name, "pony")
    case Wan22Bucket => Contains(name, "wan2.2") || Contains(name, "wan22") || Contains(name, "wan-2.2")
    case Wan21Bucket => Contains(name, "wan2.1") || Contains(name, "wan21") || Contains(name, "wan-2.1")
    case SdxlBucket => Contains(name, "sdxl") || Contains(name, "xl")
    case SdBucket => Contains(name, "sd15") || Contains(name, "sd1.5") || Contains(name, "sd-v1")
    case FluxKreaBucket => Contains(name, "krea")
    case IllustriousBucket => Contains(name, "illustrious") || Contains(name, "illu")
    case FluxBucket => false
    case OtherBucket => false
  }

  predicate NoRuleMatches(name: string)
  {
    forall b: ProfileBucket :: !RuleMatches(b, name)
  }

  /** The first name rule that fires, if any. */
  function FirstRule(name: string): Option<ProfileBucket>
  {
    if RuleMatches(PonyBucket, name) then Some(PonyBucket)
    else if RuleMatches(Wan22Bucket, name) then Some(Wan22Bucket)
    else if RuleMatches(Wan21Bucket, name) then Some(Wan21Bucket)
    else if RuleMatches(SdxlBucket, name) then Some(SdxlBucket)
    else if RuleMatches(SdBucket, name) then Some(SdBucket)
    else if RuleMatches(FluxKreaBucket, name) then Some(FluxKreaBucket)
    else if RuleMatches(IllustriousBucket, name) then Some(IllustriousBucket)
    else None
  }

  /**
   * First match: the chosen rule fires and no earlier one does; no rule
   * at all fires exactly when there is no choice.
   */
  lemma FirstRuleIsFirstMatch(name: string)
    ensures FirstRule(name).None? <==> NoRuleMatches(name)
    ensures FirstRule(name).Some? ==>
              var b := FirstRule(name).value;
              RuleRank(b).Some? && RuleMatches(b, name)
              && forall c: ProfileBucket | RuleRank(c).Some? && RuleRank(c).value < RuleRank(b).value :: !RuleMatches(c, name)
  {
  }

  /** `_detect_bucket`: the (label, bucket) pair for a file and its engine-reported family. */
  function DetectBucket(loraPath: string, sep: char, modelFamily: string): (r: (string, ProfileBucket))
    ensures var name := Lower(Skeleton.Basename(loraPath, sep));
            var family := Strip(modelFamily);
            && (FirstRule(name).Some? ==> r == (FamilyLabel(r.1), FirstRule(name).value))
            && (r.1 == FluxBucket <==> NoRuleMatches(name) && Lower(family) == "flux")
            && (r.1 == OtherBucket <==> NoRuleMatches(name) && Lower(family) != "flux")
            && (r.1 == OtherBucket ==> r.0 == if family == "" then "Unknown" else family)
            && (r.1 != OtherBucket ==> r.0 == FamilyLabel(r.1))
  {
    var name := Lower(Skeleton.Basename(loraPath, sep));
    var family := Strip(modelFamily);
    FirstRuleIsFirstMatch(name);
    if Contains(name, "pony") then ("Pony", PonyBucket)
    else if Contains(name, "wan2.2") || Contains(name, "wan22") || Contains(name, "wan-2.2") then ("WAN 2.2", Wan22Bucket)
    else if Contains(name, "wan2.1") || Contains(name, "wan21") || Contains(name, "wan-2.1") then ("WAN 2.1", Wan21Bucket)
    else if Contains(name, "sdxl") || Contains(name, "xl") then ("SDXL", SdxlBucket)
    else if Contains(name, "sd15") || Contains(name, "sd1.5") || Contains(name, "sd-v1") then ("SD 1.x", SdBucket)
    else if Contains(name, "krea") then ("Flux (Krea)", FluxKreaBucket)
    else if Contains(name, "illustrious") || Contains(name, "illu") then ("Illustrious", IllustriousBucket)
    else if Lower(family) == "flux" then ("Flux", FluxBucket)
    else (if family == "" then "Unknown" else family, OtherBucket)
  }

  /** The label is never empty, whatever the engine reported. */
  lemma DetectBucketLabelNonEmpty(loraPath: string, sep: char, modelFamily: string)
    ensures DetectBucket(loraPath, sep, modelFamily).0 != ""
  {
    var r := DetectBucket(loraPath, sep, modelFamily);
    if r.1 != OtherBucket {
      assert r.0 == FamilyLabel(r.1);
    }
  }

  /** The "sdxl" test is redundant: every name containing "sdxl" contains "xl". */
  lemma SdxlImpliesXl(name: string)
    requires Contains(name, "sdxl")
    ensures Contains(name, "xl")
  {
    var i :| 0 <= i <= |name| - 4 && MatchesAt(name, i, "sdxl");
    assert name[i + 2..i + 4] == name[i..i + 4][2..4];
    ContainsWitness(name, "xl", i + 2);
  }

  /** Likewise "illustrious" is subsumed by "illu". */
  lemma IllustriousImpliesIllu(name: string)
    requires Contains(name, "illustrious")
    ensures Contains(name, "illu")
  {
    var i :| 0 <= i <= |name| - 11 && MatchesAt(name, i, "illustrious");
    assert name[i..i + 4] == name[i..i + 11][..4];
    ContainsWitness(name, "illu", i);
  }

  // ---------------------------------------------------------------
  // File name split (`os.path.splitext` on the base name)
  // ---------------------------------------------------------------

  /** The position of the last '.' in `s`, if any. */
  function LastDot(s: string): (r: Option<nat>)
    ensures r.Some? ==> r.value < |s| && s[r.value] == '.' && Lacks(s[r.value + 1..], '.')
    ensures r.None? ==> Lacks(s, '.')
    decreases |s|
  {
    if s == [] then None
    else if s[|s| - 1] == '.' then Some(|s| - 1)
    else
      var r := LastDot(s[..|s| - 1]);
      assert r.Some? ==> s[r.value + 1..] == s[..|s| - 1][r.value + 1..] + [s[|s| - 1]];
      r
  }

  predicate AllDots(s: string)
  {
    forall j | 0 <= j < |s| :: s[j] == '.'
  }

  /**
   * `os.path.splitext(name)` for a name without separators: the
   * extension starts at the last dot, unless only dots precede it.
   */
  function SplitExt(name: string): (r: (string, string))
    ensures r.0 + r.1 == name
    ensures r.1 == [] || (r.1[0] == '.' && Lacks(r.1[1..], '.') && !AllDots(r.0))
    ensures r.1 == [] ==> Lacks(name, '.') || AllDots(name[..LastDot(name).value])
  {
    match LastDot(name)
    case None => (name, "")
    case Some(k) =>
      if AllDots(name[..k]) then (name, "")
      else (name[..k], name[k..])
  }

  /** A dot followed by no other dot is the last one. */
  lemma {:induction false} LastDotIs(s: string, k: nat)
    requires k < |s| && s[k] == '.' && Lacks(s[k + 1..], '.')
    ensures LastDot(s) == Some(k)
    decreases |s|
  {
    if k < |s| - 1 {
      var p := s[..|s| - 1];
      assert s[|s| - 1] == s[k + 1..][|s| - 2 - k];
      assert p[k + 1..] == s[k + 1..|s| - 1];
      LastDotIs(p, k);
    }
  }

  /** Splitting a stem joined to a dotted extension gives the two back. */
  lemma SplitExtOfJoin(stem: string, ext: string)
    requires !AllDots(stem) && Lacks(ext, '.')
    ensures SplitExt(stem + "." + ext) == (stem, "." + ext)
  {
    var name := stem + "." + ext;
    var k := |stem|;
    assert name[k + 1..] == ext;
    LastDotIs(name, k);
    assert name[..k] == stem;
    assert name[k..] == "." + ext;
  }

  // ---------------------------------------------------------------
  // Block statistics
  // ---------------------------------------------------------------

  /** The `"blocks"` section of a profile. */
  datatype BlockSection = BlockSection(
    normalisedWeights: seq<real>,
    rawStrengths: seq<real>,
    count: nat,
    maxNorm: real,
    meanNorm: real)

  /** The block statistics of `build_profile_for_lora`. */
  function BlockStats(weights: seq<real>, raw: seq<real>): (r: BlockSection)
    ensures r.normalisedWeights == weights && r.rawStrengths == raw
    ensures r.count >= |weights| && r.count >= |raw| && (r.count == |weights| || r.count == |raw|)
    ensures weights == [] ==> r.maxNorm == 0.0 && r.meanNorm == 0.0
    ensures weights != [] ==> r.maxNorm in weights && forall i | 0 <= i < |weights| :: weights[i] <= r.maxNorm
    ensures weights != [] ==> r.meanNorm * |weights| as real == Sum(weights)
  {
    var count := if |weights| >= |raw| then |weights| else |raw|;
    if weights == [] then BlockSection(weights, raw, count, 0.0, 0.0)
    else BlockSection(weights, raw, count, Max(weights), Sum(weights) / |weights| as real)
  }

  /** The mean never exceeds the maximum, and with non-negative weights neither is negative. */
  lemma MeanAtMostMax(weights: seq<real>, raw: seq<real>)
    ensures var r := BlockStats(weights, raw); r.meanNorm <= r.maxNorm || weights == []
    ensures var r := BlockStats(weights, raw); AllNonNegative(weights) ==> 0.0 <= r.meanNorm && 0.0 <= r.maxNorm
  {
    var r := BlockStats(weights, raw);
    if weights != [] {
      var n := |weights| as real;
      SumAtMost(weights, r.maxNorm);
      assert r.meanNorm * n <= n * r.maxNorm;
      if AllNonNegative(weights) {
        SumNonNegative(weights);
        assert r.meanNorm * n >= 0.0;
        assert weights[0] <= r.maxNorm;
      }
    }
  }

  // ---------------------------------------------------------------
  // The profile
  // ---------------------------------------------------------------

  datatype FileSection = FileSection(path: string, name: string, stem: string, ext: string)

  datatype ModelSection = ModelSection(
    engineFamily: string,
    familyLabel: string,
    bucket: string,
    baseModelCode: Option<string>,
    loraType: string)

  datatype Profile = Profile(file: FileSection, model: ModelSection, blocks: BlockSection, analysis: DI.LoraAnalysis)

  /** The profile dict built from an engine analysis of the file at `loraPath`. */
  function ProfileOf(loraPath: string, sep: char, a: DI.LoraAnalysis): (p: Profile)
    ensures p.file.path == loraPath && Lacks(p.file.name, sep) && EndsWith(loraPath, p.file.name)
    ensures p.file.stem + p.file.ext == p.file.name
    ensures p.model.bucket in ProfileBucketValues
    ensures p.model.bucket == BucketName(DetectBucket(loraPath, sep, a.modelFamily).1)
    ensures p.blocks == BlockStats(a.blockWeights, a.rawBlockStrengths)
  {
    Skeleton.BasenameIsLastPart(loraPath, sep);
    var name := Skeleton.Basename(loraPath, sep);
    var (stem, ext) := SplitExt(name);
    var (family, bucket) := DetectBucket(loraPath, sep, a.modelFamily);
    BucketNamesAreProfileBuckets(bucket, bucket);
    Profile(
      FileSection(loraPath, name, stem, ext),
      ModelSection(a.modelFamily, family, BucketName(bucket), a.baseModelCode, a.loraType),
      BlockStats(a.blockWeights, a.rawBlockStrengths),
      a)
  }

  /** `build_profile_for_lora`: the missing file, then the engine's outcome, then the profile. */
  method BuildProfileForLora(loraPath: string, sep: char, fileExists: bool, baseCode: Option<string>,
                             tensors: seq<UB.Tensor>, round: real -> real)
    returns (r: Result<Profile, DI.InspectError>)
    ensures !fileExists ==> r == Err(DI.FileNotFound)
    ensures fileExists && DI.DispatchOf(baseCode).Unsupported? ==> r == Err(DI.UnsupportedBaseModel(baseCode))
    ensures fileExists && DI.DispatchOf(baseCode).WanPlaceholder? ==>
              r == Ok(ProfileOf(loraPath, sep, DI.WanPlaceholderAnalysis(loraPath, DI.DispatchOf(baseCode).wanCode)))
    ensures var bs := DI.BucketAll(tensors);
            fileExists && DI.DispatchOf(baseCode).FluxAnalysis? ==>
              if DI.CaseOf(bs).None? then r == Err(DI.NoFluxStructure)
              else r == Ok(ProfileOf(loraPath, sep, DI.FluxResult(loraPath, DI.DispatchOf(baseCode).fluxCode, bs, DI.CaseOf(bs).value, round)))
  {
    if !fileExists {
      return Err(DI.FileNotFound);
    }
    var analysis := DI.InspectLora(loraPath, fileExists, baseCode, tensors, round);
    match analysis {
      case Err(e) => r := Err(e);
      case Ok(a) => r := Ok(ProfileOf(loraPath, sep, a));
    }
  }

  /** Weights in [0, 1] with one raw strength each give statistics in [0, 1]. */
  lemma UnitWeightStats(weights: seq<real>, raw: seq<real>)
    requires forall i | 0 <= i < |weights| :: 0.0 <= weights[i] <= 1.0
    requires |weights| == |raw|
    ensures var r := BlockStats(weights, raw);
            0.0 <= r.meanNorm <= r.maxNorm <= 1.0 && r.count == |weights|
  {
    var r := BlockStats(weights, raw);
    assert AllNonNegative(weights);
    MeanAtMostMax(weights, raw);
    if weights != [] {
      var k :| 0 <= k < |weights| && weights[k] == r.maxNorm;
    }
  }

  /** A file the engine reports as "Flux" never lands in the catch-all bucket. */
  lemma FluxFamilyIsNotOther(loraPath: string, sep: char)
    ensures DetectBucket(loraPath, sep, "Flux").1 != OtherBucket
  {
    FluxFamilyNormalises();
    var r := DetectBucket(loraPath, sep, "Flux");
    assert r.1 == OtherBucket ==> Lower(Strip("Flux")) != "flux";
  }

  lemma FluxFamilyNormalises()
    ensures Lower(Strip("Flux")) == "flux"
  {
    NormalisesToFlux("Flux");
  }

  lemma NormalisesToFlux(f: string)
    requires |f| == 4 && f[0] == 'F' && f[1] == 'l' && f[2] == 'u' && f[3] == 'x'
    ensures Lower(Strip(f)) == "flux"
  {
    StripNoSpace(f);
    var l := Lower(f);
    assert |l| == 4 && l[0] == 'f' && l[1] == 'l' && l[2] == 'u' && l[3] == 'x';
  }

  /**
   * A Flux profile's statistics lie in [0, 1] when the rounding keeps
   * [0, 1] in [0, 1], and its bucket comes from a name rule or is the
   * Flux bucket, never the catch-all.
   */
  lemma FluxProfileIsUnitScaled(loraPath: string, sep: char, baseCode: Option<string>,
                                tensors: seq<UB.Tensor>, round: real -> real)
    requires DI.CaseOf(DI.BucketAll(tensors)).Some?
    requires forall x | 0.0 <= x <= 1.0 :: 0.0 <= round(x) <= 1.0
    ensures var bs := DI.BucketAll(tensors);
            var p := ProfileOf(loraPath, sep, DI.FluxResult(loraPath, baseCode, bs, DI.CaseOf(bs).value, round));
            && 0.0 <= p.blocks.meanNorm <= p.blocks.maxNorm <= 1.0
            && p.blocks.count == |p.blocks.normalisedWeights|
            && p.model.bucket != BucketName(OtherBucket)
  {
    var bs := DI.BucketAll(tensors);
    var a := DI.FluxResult(loraPath, baseCode, bs, DI.CaseOf(bs).value, round);
    DI.FluxWeightsAreUnitScaled(loraPath, baseCode, tensors, round);
    UnitWeightStats(a.blockWeights, a.rawBlockStrengths);
    FluxFamilyIsNotOther(loraPath, sep);
    BucketNamesAreProfileBuckets(DetectBucket(loraPath, sep, "Flux").1, OtherBucket);
  }
}
