/**
 * DeltaInspector: the Flux block analysis of one LoRA file. Every tensor
 * key is put in the first of four buckets whose pattern it matches
 * (transformer single blocks, UNet double blocks, UNet single blocks,
 * text-encoder layers), keyed by the block number in the key; the
 * per-tensor norms of each block are summed, and the sums are scaled by
 * their maximum. Which buckets are non-empty decides the layout.
 *
 * The patterns are case-insensitive searches; they are modelled on the
 * lower-cased key. Each ends in `(\d+)` followed by a fixed character, so
 * the captured number is the whole digit run. Tensors are given as their
 * keys with their norms (`float(t.norm().item())`).
 */
module DeltaInspector {
  import opened Text
  import opened Numeric
  import UB = UnetBlocks

  // ---------------------------------------------------------------
  // Key patterns
  // ---------------------------------------------------------------

  const TransformerPattern: string := "transformer.single_transformer_blocks."
  const DoublePattern: string := "lora_unet_double_blocks_"
  const SinglePattern: string := "lora_unet_single_blocks_"
  const Te1Pattern: string := "lora_te1_text_model_encoder_layers_"
  const Te2Pattern: string := "lora_te2_text_model_encoder_layers_"

  datatype Bucket = TransformerBlocks | DoubleBlocks | SingleBlocks | TeBlocks

  /** The position of a bucket in the order the loop tries the patterns. */
  function Rank(b: Bucket): nat
  {
    match b
    case TransformerBlocks => 0
    case DoubleBlocks => 1
    case SingleBlocks => 2
    case TeBlocks => 3
  }

  /** The literal text before `(\d+)`; `lora_te[12]_` is the choice of two texts. */
  function Prefixes(b: Bucket): seq<string>
  {
    match b
    case TransformerBlocks => [TransformerPattern]
    case DoubleBlocks => [DoublePattern]
    case SingleBlocks => [SinglePattern]
    case TeBlocks => [Te1Pattern, Te2Pattern]
  }

  /** The character after `(\d+)`. */
  function Terminator(b: Bucket): char
  {
    if b == TransformerBlocks then '.' else '_'
  }

  /** `(\d+)<term>` at `p`: the number of the digit run, when the terminator follows it. */
  function IndexAfter(s: string, p: nat, term: char): (r: Option<nat>)
    requires p <= |s|
    ensures r.Some? ==> exists e | p < e < |s| :: AllDigits(s[p..e]) && s[e] == term && r.value == DigitsValue(s[p..e])
  {
    var e := UB.DigitRunEnd(s, p);
    if e > p && e < |s| && s[e] == term then Some(DigitsValue(s[p..e])) else None
  }

  /** The pattern matches at `q` through the first prefix for which the rest also matches. */
  function MatchAt(s: string, q: nat, prefixes: seq<string>, term: char): (r: Option<nat>)
    ensures r.Some? ==> exists k | 0 <= k < |prefixes| :: MatchesAt(s, q, prefixes[k])
  {
    if prefixes == [] then None
    else
      var rest := MatchAt(s, q, prefixes[1..], term);
      if MatchesAt(s, q, prefixes[0]) then
        match IndexAfter(s, q + |prefixes[0]|, term)
        case Some(i) => Some(i)
        case None => rest
      else rest
  }

  /** `pattern.search(s)` from position `q`: the leftmost match. */
  function SearchFrom(s: string, q: nat, prefixes: seq<string>, term: char): (r: Option<nat>)
    decreases |s| - q
  {
    if q > |s| then None
    else
      match MatchAt(s, q, prefixes, term)
      case Some(i) => Some(i)
      case None => SearchFrom(s, q + 1, prefixes, term)
  }

  /** `int(m.group(1))` for the bucket's pattern searched in the key, when it matches. */
  function Search(key: string, b: Bucket): Option<nat>
  {
    SearchFrom(Lower(key), 0, Prefixes(b), Terminator(b))
  }

  /** A pattern matches a key exactly when it matches the key lower-cased: matching ignores case. */
  lemma {:induction false} SearchIgnoresCase(key: string, b: Bucket)
    ensures Search(Lower(key), b) == Search(key, b)
  {
    LowerIdempotent(key);
  }

  /**
   * The bucket of a key: the first pattern, in the loop's order, that
   * matches, and the block number it captures.
   */
  function BucketOf(key: string): (r: Option<(Bucket, nat)>)
    ensures r.None? <==> forall b: Bucket :: Search(key, b).None?
    ensures r.Some? ==> Search(key, r.value.0) == Some(r.value.1)
    ensures r.Some? ==> forall b: Bucket | Rank(b) < Rank(r.value.0) :: Search(key, b).None?
  {
    match Search(key, TransformerBlocks)
    case Some(i) => Some((TransformerBlocks, i))
    case None =>
      match Search(key, DoubleBlocks)
      case Some(i) => Some((DoubleBlocks, i))
      case None =>
        match Search(key, SingleBlocks)
        case Some(i) => Some((SingleBlocks, i))
        case None =>
          match Search(key, TeBlocks)
          case Some(i) => Some((TeBlocks, i))
          case None =>
            NoPatternMatches(key);
            None
  }

  lemma NoPatternMatches(key: string)
    requires Search(key, TransformerBlocks).None? && Search(key, DoubleBlocks).None?
    requires Search(key, SingleBlocks).None? && Search(key, TeBlocks).None?
    ensures forall b: Bucket :: Search(key, b).None?
  {
    forall b: Bucket ensures Search(key, b).None? {
      match b
      case TransformerBlocks =>
      case DoubleBlocks =>
      case SingleBlocks =>
      case TeBlocks =>
    }
  }

  // ---------------------------------------------------------------
  // Bucketing
  // ---------------------------------------------------------------

  /** The four `Dict[int, List[Tensor]]` maps, holding each tensor's norm. */
  datatype Buckets = Buckets(
    transformer: map<nat, seq<real>>,
    double: map<nat, seq<real>>,
    single: map<nat, seq<real>>,
    te: map<nat, seq<real>>)

  const NoBuckets: Buckets := Buckets(map[], map[], map[], map[])

  function BucketMap(bs: Buckets, b: Bucket): map<nat, seq<real>>
  {
    match b
    case TransformerBlocks => bs.transformer
    case DoubleBlocks => bs.double
    case SingleBlocks => bs.single
    case TeBlocks => bs.te
  }

  /** `m.get(i, [])` */
  function Get(m: map<nat, seq<real>>, i: nat): seq<real>
  {
    if i in m then m[i] else []
  }

  /** `m.setdefault(i, []).append(v)` */
  function Append(m: map<nat, seq<real>>, i: nat, v: real): (r: map<nat, seq<real>>)
    ensures r.Keys == m.Keys + {i}
    ensures Get(r, i) == Get(m, i) + [v]
    ensures forall j | j != i :: Get(r, j) == Get(m, j)
  {
    m[i := Get(m, i) + [v]]
  }

  function AddTo(bs: Buckets, b: Bucket, i: nat, v: real): (r: Buckets)
    ensures BucketMap(r, b) == Append(BucketMap(bs, b), i, v)
    ensures forall c: Bucket | c != b :: BucketMap(r, c) == BucketMap(bs, c)
  {
    match b
    case TransformerBlocks => bs.(transformer := Append(bs.transformer, i, v))
    case DoubleBlocks => bs.(double := Append(bs.double, i, v))
    case SingleBlocks => bs.(single := Append(bs.single, i, v))
    case TeBlocks => bs.(te := Append(bs.te, i, v))
  }

  /** The buckets after the scan over `tensors`, in order. */
  function BucketAll(tensors: seq<UB.Tensor>): Buckets
    decreases |tensors|
  {
    if tensors == [] then NoBuckets
    else ScanTensor(BucketAll(tensors[..|tensors| - 1]), tensors[|tensors| - 1])
  }

  /** One pass of the scan loop: the tensor's norm goes to its block, or is ignored. */
  function ScanTensor(bs: Buckets, t: UB.Tensor): Buckets
  {
    match BucketOf(t.key)
    case None => bs
    case Some((b, i)) => AddTo(bs, b, i, t.norm)
  }

  /** The norms, in order, of the tensors whose key belongs to block `i` of bucket `b`. */
  function Collected(tensors: seq<UB.Tensor>, b: Bucket, i: nat): (r: seq<real>)
    ensures |r| <= |tensors|
    decreases |tensors|
  {
    if tensors == [] then []
    else
      var before := Collected(tensors[..|tensors| - 1], b, i);
      var t := tensors[|tensors| - 1];
      if BucketOf(t.key) == Some((b, i)) then before + [t.norm] else before
  }

  /**
   * After the scan, block `i` of bucket `b` holds exactly the norms of the
   * tensors whose first matching pattern is `b` with number `i`, in key
   * order, and the block is present exactly when there is one.
   */
  lemma {:induction false} BucketAllCollects(tensors: seq<UB.Tensor>, b: Bucket, i: nat)
    ensures Get(BucketMap(BucketAll(tensors), b), i) == Collected(tensors, b, i)
    ensures i in BucketMap(BucketAll(tensors), b) <==> Collected(tensors, b, i) != []
    decreases |tensors|
  {
    if tensors != [] {
      BucketAllCollects(tensors[..|tensors| - 1], b, i);
    }
  }

  /** The scan loop over `tensors.items()`. */
  method BucketTensors(tensors: seq<UB.Tensor>) returns (bs: Buckets)
    ensures bs == BucketAll(tensors)
  {
    bs := NoBuckets;
    for idx := 0 to |tensors|
      invariant bs == BucketAll(tensors[..idx])
    {
      assert tensors[..idx + 1][..idx] == tensors[..idx];
      ghost var before := bs;
      var t := tensors[idx];
      match BucketOf(t.key) {
        case None =>
        case Some((b, i)) => bs := AddTo(bs, b, i, t.norm);
      }
      assert bs == ScanTensor(before, t);
    }
    assert tensors[..|tensors|] == tensors;
  }

  // ---------------------------------------------------------------
  // Strengths
  // ---------------------------------------------------------------

  predicate Increasing(s: seq<nat>)
  {
    forall i, j | 0 <= i < j < |s| :: s[i] < s[j]
  }

  predicate IsLeast(m: nat, s: set<nat>)
  {
    m in s && forall k | k in s :: m <= k
  }

  lemma {:induction false} HasMinimum(s: set<nat>)
    requires s != {}
    ensures exists m :: IsLeast(m, s)
    decreases s
  {
    var x :| x in s;
    if s != {x} {
      var rest := s - {x};
      HasMinimum(rest);
      var m :| IsLeast(m, rest);
      var least := if x < m then x else m;
      forall k | k in s ensures least <= k {
        if k != x {
          assert k in rest;
        }
      }
      assert IsLeast(least, s);
    } else {
      assert IsLeast(x, s);
    }
  }

  ghost function MinOf(s: set<nat>): (m: nat)
    requires s != {}
    ensures m in s && forall k | k in s :: m <= k
  {
    HasMinimum(s);
    var m :| IsLeast(m, s);
    m
  }

  /** `sorted(s)` */
  ghost function SortedKeys(s: set<nat>): (r: seq<nat>)
    ensures Increasing(r)
    ensures forall k :: k in r <==> k in s
    decreases s
  {
    if s == {} then []
    else
      var m := MinOf(s);
      var rest := SortedKeys(s - {m});
      assert forall j | 0 <= j < |rest| :: m < rest[j] by {
        forall j | 0 <= j < |rest| ensures m < rest[j] {
          assert rest[j] in s - {m};
        }
      }
      [m] + rest
  }

  /** Two increasing sequences with the same elements are equal: sorting has one answer. */
  lemma {:induction false} IncreasingUnique(a: seq<nat>, b: seq<nat>)
    requires Increasing(a) && Increasing(b)
    requires forall k :: k in a <==> k in b
    ensures a == b
    decreases |a|
  {
    if b != [] {
      assert b[0] in b;
    }
    if a != [] {
      assert a[0] in b;
      assert b != [];
      assert b[0] in a;
      FirstIsLeast(b, a[0]);
      FirstIsLeast(a, b[0]);
      forall k ensures k in a[1..] <==> k in b[1..] {
        InTail(a, k);
        InTail(b, k);
      }
      IncreasingUnique(a[1..], b[1..]);
      assert a == [a[0]] + a[1..] && b == [b[0]] + b[1..];
    }
  }

  lemma FirstIsLeast(s: seq<nat>, x: nat)
    requires Increasing(s) && x in s
    ensures s[0] <= x
  {
    var i :| 0 <= i < |s| && s[i] == x;
    if i > 0 {
      assert s[0] < s[i];
    }
  }

  lemma InTail(s: seq<nat>, k: nat)
    requires Increasing(s) && s != []
    ensures k in s[1..] <==> k in s && k != s[0]
  {
    if k in s[1..] {
      var j :| 0 <= j < |s[1..]| && s[1..][j] == k;
      assert s[j + 1] == k;
    }
    if k in s && k != s[0] {
      var j :| 0 <= j < |s| && s[j] == k;
      assert s[1..][j - 1] == k;
    }
  }

  /** The raw strength of each block in `indices`: the sum of its norms. */
  function StrengthsAt(m: map<nat, seq<real>>, indices: seq<nat>): (r: seq<real>)
    requires forall j | 0 <= j < |indices| :: indices[j] in m
    ensures |r| == |indices|
  {
    seq(|indices|, j requires 0 <= j < |indices| => Sum(m[indices[j]]))
  }

  /**
   * `[round(v / max_val, 6) for v in raw]` when the maximum is positive,
   * and zeros otherwise; `round` stands for the rounding to six places.
   */
  function Normalise(raw: seq<real>, round: real -> real): (r: seq<real>)
    ensures |r| == |raw|
  {
    if raw != [] && Max(raw) > 0.0 then seq(|raw|, i requires 0 <= i < |raw| => round(raw[i] / Max(raw)))
    else Zeros(|raw|)
  }

  /**
   * With a rounding that keeps [0, 1] in [0, 1], every normalised strength
   * lies in [0, 1]; when the rounding keeps 1 and some strength is
   * positive, the strongest block is exactly 1; with no positive strength
   * every entry is 0.
   */
  lemma NormaliseBounds(raw: seq<real>, round: real -> real)
    requires AllNonNegative(raw)
    requires forall x | 0.0 <= x <= 1.0 :: 0.0 <= round(x) <= 1.0
    ensures forall i | 0 <= i < |raw| :: 0.0 <= Normalise(raw, round)[i] <= 1.0
    ensures raw != [] && Max(raw) > 0.0 && round(1.0) == 1.0 ==> 1.0 in Normalise(raw, round)
    ensures (forall i | 0 <= i < |raw| :: raw[i] == 0.0) ==> Normalise(raw, round) == Zeros(|raw|)
  {
    if raw != [] && Max(raw) > 0.0 {
      ScaledByMax(raw);
      var d := DivideAll(raw, Max(raw));
      assert forall i | 0 <= i < |raw| :: Normalise(raw, round)[i] == round(d[i]);
      if round(1.0) == 1.0 {
        var k :| 0 <= k < |d| && d[k] == 1.0;
        assert Normalise(raw, round)[k] == 1.0;
      }
    }
  }

  /** The inner `strength += float(t.norm().item())` loop. */
  method SumNorms(norms: seq<real>) returns (strength: real)
    ensures strength == Sum(norms)
  {
    strength := 0.0;
    for k := 0 to |norms|
      invariant strength == Sum(norms[..k])
    {
      SumAppend(norms[..k], norms[k]);
      assert norms[..k + 1] == norms[..k] + [norms[k]];
      strength := strength + norms[k];
    }
    assert norms[..|norms|] == norms;
  }

  /** `sorted(blocks.keys())`, by repeatedly taking the smallest key left. */
  method SortKeys(keys: set<nat>) returns (indices: seq<nat>)
    ensures indices == SortedKeys(keys)
  {
    indices := [];
    var remaining := keys;
    while remaining != {}
      invariant remaining <= keys
      invariant Increasing(indices)
      invariant forall k :: k in indices <==> k in keys && k !in remaining
      invariant forall j, k | 0 <= j < |indices| && k in remaining :: indices[j] < k
      decreases remaining
    {
      var m :| m in remaining;
      var rest := remaining - {m};
      while rest != {}
        invariant rest <= remaining && m in remaining
        invariant forall k | k in remaining && k !in rest :: m <= k
        decreases rest
      {
        var y :| y in rest;
        if y < m {
          m := y;
        }
        rest := rest - {y};
      }
      indices := indices + [m];
      remaining := remaining - {m};
    }
    IncreasingUnique(indices, SortedKeys(keys));
  }

  /** The loop over the sorted block numbers, summing each block's norms. */
  method BlockSums(blocks: map<nat, seq<real>>, indices: seq<nat>) returns (raw: seq<real>)
    requires forall j | 0 <= j < |indices| :: indices[j] in blocks
    ensures raw == StrengthsAt(blocks, indices)
  {
    raw := [];
    for j := 0 to |indices|
      invariant |raw| == j
      invariant forall k | 0 <= k < j :: raw[k] == Sum(blocks[indices[k]])
    {
      var strength := SumNorms(blocks[indices[j]]);
      raw := raw + [strength];
    }
  }

  /**
   * `_accumulate_block_strengths`: the sorted block numbers, the sum of
   * each block's norms, and those sums normalised.
   */
  method AccumulateBlockStrengths(blocks: map<nat, seq<real>>, round: real -> real)
    returns (indices: seq<nat>, raw: seq<real>, norm: seq<real>)
    ensures blocks == map[] ==> indices == [] && raw == [] && norm == []
    ensures indices == SortedKeys(blocks.Keys)
    ensures raw == StrengthsAt(blocks, indices)
    ensures norm == Normalise(raw, round)
  {
    if blocks == map[] {
      assert blocks.Keys == {};
      return [], [], [];
    }
    indices := SortKeys(blocks.Keys);
    raw := BlockSums(blocks, indices);
    norm := Normalise(raw, round);
  }

  /** The three lists have one entry per block, and each raw entry is that block's sum. */
  lemma AccumulatedShape(blocks: map<nat, seq<real>>, round: real -> real)
    ensures var indices := SortedKeys(blocks.Keys);
            |StrengthsAt(blocks, indices)| == |indices| == |blocks|
            && |Normalise(StrengthsAt(blocks, indices), round)| == |indices|
  {
    var indices := SortedKeys(blocks.Keys);
    SortedHasEachKeyOnce(blocks.Keys);
  }

  lemma {:induction false} SortedHasEachKeyOnce(s: set<nat>)
    ensures |SortedKeys(s)| == |s|
    decreases s
  {
    if s != {} {
      var m := MinOf(s);
      SortedHasEachKeyOnce(s - {m});
    }
  }

  // ---------------------------------------------------------------
  // The 57-block UNet layout
  // ---------------------------------------------------------------

  const DoubleBlockCount: nat := 19
  const SingleBlockCount: nat := 38

  /** `[DOUBLE_0..18] + [SINGLE_0..37]`, each the sum of its norms, a missing block counting 0. */
  function Unet57Raw(double: map<nat, seq<real>>, single: map<nat, seq<real>>): (r: seq<real>)
    ensures |r| == DoubleBlockCount + SingleBlockCount
  {
    seq(DoubleBlockCount, i requires 0 <= i < DoubleBlockCount => Sum(Get(double, i)))
    + seq(SingleBlockCount, j requires 0 <= j < SingleBlockCount => Sum(Get(single, j)))
  }

  /** `_compute_flux_unet_57_strengths` */
  method ComputeFluxUnet57Strengths(double: map<nat, seq<real>>, single: map<nat, seq<real>>, round: real -> real)
    returns (raw: seq<real>, norm: seq<real>)
    ensures raw == Unet57Raw(double, single)
    ensures norm == Normalise(raw, round)
  {
    raw := [];
    for i := 0 to DoubleBlockCount
      invariant |raw| == i
      invariant forall k | 0 <= k < i :: raw[k] == Sum(Get(double, k))
    {
      var strength := SumNorms(Get(double, i));
      raw := raw + [strength];
    }
    for j := 0 to SingleBlockCount
      invariant |raw| == DoubleBlockCount + j
      invariant forall k | 0 <= k < DoubleBlockCount :: raw[k] == Sum(Get(double, k))
      invariant forall k | 0 <= k < j :: raw[DoubleBlockCount + k] == Sum(Get(single, k))
    {
      var strength := SumNorms(Get(single, j));
      raw := raw + [strength];
    }
    norm := Normalise(raw, round);
  }

  /** Position `i < 19` is double block `i`, position `19 + j` single block `j`; missing blocks are 0. */
  lemma Unet57Positions(double: map<nat, seq<real>>, single: map<nat, seq<real>>)
    ensures forall i | 0 <= i < DoubleBlockCount :: Unet57Raw(double, single)[i] == Sum(Get(double, i))
    ensures forall j | 0 <= j < SingleBlockCount :: Unet57Raw(double, single)[DoubleBlockCount + j] == Sum(Get(single, j))
    ensures forall i | 0 <= i < DoubleBlockCount && i !in double :: Unet57Raw(double, single)[i] == 0.0
    ensures forall j | 0 <= j < SingleBlockCount && j !in single :: Unet57Raw(double, single)[DoubleBlockCount + j] == 0.0
  {
  }

  /** Blocks numbered beyond the layout (double 19 and up, single 38 and up) do not change the strengths. */
  lemma Unet57IgnoresOtherBlocks(d1: map<nat, seq<real>>, s1: map<nat, seq<real>>, d2: map<nat, seq<real>>, s2: map<nat, seq<real>>)
    requires forall i | 0 <= i < DoubleBlockCount :: Get(d1, i) == Get(d2, i)
    requires forall j | 0 <= j < SingleBlockCount :: Get(s1, j) == Get(s2, j)
    ensures Unet57Raw(d1, s1) == Unet57Raw(d2, s2)
  {
    var a := Unet57Raw(d1, s1);
    var b := Unet57Raw(d2, s2);
    forall k | 0 <= k < |a| ensures a[k] == b[k] {
      if k >= DoubleBlockCount {
        assert Get(s1, k - DoubleBlockCount) == Get(s2, k - DoubleBlockCount);
      }
    }
  }

  // ---------------------------------------------------------------
  // Case dispatch
  // ---------------------------------------------------------------

  datatype FluxCase = TransformerCase | UnetCase | DoubleCase | TeCase

  /**
   * The cases in their order: transformer blocks; double and single
   * blocks together; double blocks alone; text-encoder layers alone.
   * Single blocks without double blocks are no case at all.
   */
  function CaseOf(bs: Buckets): (r: Option<FluxCase>)
    ensures r.None? <==> bs.transformer == map[] && bs.double == map[] && bs.te == map[]
    ensures r == Some(TransformerCase) <==> bs.transformer != map[]
    ensures r == Some(UnetCase) <==> bs.transformer == map[] && bs.double != map[] && bs.single != map[]
    ensures r == Some(DoubleCase) <==> bs.transformer == map[] && bs.double != map[] && bs.single == map[]
    ensures r == Some(TeCase) <==> bs.transformer == map[] && bs.double == map[] && bs.te != map[]
  {
    if bs.transformer != map[] then Some(TransformerCase)
    else if bs.double != map[] && bs.single != map[] then Some(UnetCase)
    else if bs.double != map[] then Some(DoubleCase)
    else if bs.te != map[] then Some(TeCase)
    else None
  }

  function LayoutLabel(c: FluxCase): string
  {
    match c
    case TransformerCase => "flux_transformer_38"
    case UnetCase => "flux_unet_57"
    case DoubleCase => "flux_unet_double"
    case TeCase => "flux_te_layers"
  }

  function LoraTypeLabel(c: FluxCase): string
  {
    match c
    case TransformerCase => "Flux (single_transformer_blocks)"
    case UnetCase => "Flux (UNet double+single blocks)"
    case DoubleCase => "Flux (UNet double_blocks)"
    case TeCase => "Flux (text-encoder only)"
  }

  /** The raw strengths of a case: only that case's buckets contribute. */
  ghost function CaseRaw(bs: Buckets, c: FluxCase): seq<real>
  {
    match c
    case TransformerCase => StrengthsAt(bs.transformer, SortedKeys(bs.transformer.Keys))
    case UnetCase => Unet57Raw(bs.double, bs.single)
    case DoubleCase => StrengthsAt(bs.double, SortedKeys(bs.double.Keys))
    case TeCase => StrengthsAt(bs.te, SortedKeys(bs.te.Keys))
  }

  /** `LoraAnalysis`, without its free-text notes. */
  datatype LoraAnalysis = LoraAnalysis(
    filePath: string,
    modelFamily: string,
    baseModelCode: Option<string>,
    loraType: string,
    rank: Option<int>,
    blockLayout: Option<string>,
    blockWeights: seq<real>,
    rawBlockStrengths: seq<real>)

  datatype InspectError = FileNotFound | NoFluxStructure | UnsupportedBaseModel(code: Option<string>)

  ghost function FluxResult(filePath: string, baseCode: Option<string>, bs: Buckets, c: FluxCase, round: real -> real): LoraAnalysis
  {
    var raw := CaseRaw(bs, c);
    LoraAnalysis(filePath, "Flux", baseCode, LoraTypeLabel(c), None, Some(LayoutLabel(c)), Normalise(raw, round), raw)
  }

  /** The UNet layout always has 57 entries; every other case has one entry per block number seen. */
  lemma CaseRawLength(bs: Buckets, c: FluxCase)
    ensures c == UnetCase ==> |CaseRaw(bs, c)| == 57
    ensures c == TransformerCase ==> |CaseRaw(bs, c)| == |bs.transformer|
    ensures c == DoubleCase ==> |CaseRaw(bs, c)| == |bs.double|
    ensures c == TeCase ==> |CaseRaw(bs, c)| == |bs.te|
  {
    SortedHasEachKeyOnce(bs.transformer.Keys);
    SortedHasEachKeyOnce(bs.double.Keys);
    SortedHasEachKeyOnce(bs.te.Keys);
  }

  lemma {:induction false} CollectedNonNegative(tensors: seq<UB.Tensor>, b: Bucket, i: nat)
    ensures AllNonNegative(Collected(tensors, b, i))
    decreases |tensors|
  {
    if tensors != [] {
      CollectedNonNegative(tensors[..|tensors| - 1], b, i);
    }
  }

  lemma BlockSumNonNegative(tensors: seq<UB.Tensor>, b: Bucket, i: nat)
    ensures Sum(Get(BucketMap(BucketAll(tensors), b), i)) >= 0.0
  {
    BucketAllCollects(tensors, b, i);
    CollectedNonNegative(tensors, b, i);
    SumNonNegative(Collected(tensors, b, i));
  }

  lemma SortedStrengthsNonNegative(tensors: seq<UB.Tensor>, b: Bucket)
    ensures var m := BucketMap(BucketAll(tensors), b);
            AllNonNegative(StrengthsAt(m, SortedKeys(m.Keys)))
  {
    var m := BucketMap(BucketAll(tensors), b);
    var keys := SortedKeys(m.Keys);
    forall j | 0 <= j < |keys| ensures Sum(m[keys[j]]) >= 0.0 {
      BlockSumNonNegative(tensors, b, keys[j]);
    }
  }

  lemma Unet57RawNonNegative(double: map<nat, seq<real>>, single: map<nat, seq<real>>)
    requires forall i: nat :: Sum(Get(double, i)) >= 0.0
    requires forall i: nat :: Sum(Get(single, i)) >= 0.0
    ensures AllNonNegative(Unet57Raw(double, single))
  {
    var raw := Unet57Raw(double, single);
    forall j | 0 <= j < |raw| ensures raw[j] >= 0.0 {
      if j < DoubleBlockCount {
        assert raw[j] == Sum(Get(double, j));
      } else {
        assert raw[j] == Sum(Get(single, j - DoubleBlockCount));
      }
    }
  }

  lemma BucketSumsNonNegative(tensors: seq<UB.Tensor>, b: Bucket)
    ensures forall i: nat :: Sum(Get(BucketMap(BucketAll(tensors), b), i)) >= 0.0
  {
    forall i: nat ensures Sum(Get(BucketMap(BucketAll(tensors), b), i)) >= 0.0 {
      BlockSumNonNegative(tensors, b, i);
    }
  }

  lemma Unet57NonNegative(tensors: seq<UB.Tensor>)
    ensures var bs := BucketAll(tensors);
            AllNonNegative(Unet57Raw(bs.double, bs.single))
  {
    var bs := BucketAll(tensors);
    BucketSumsNonNegative(tensors, DoubleBlocks);
    BucketSumsNonNegative(tensors, SingleBlocks);
    assert BucketMap(bs, DoubleBlocks) == bs.double;
    assert BucketMap(bs, SingleBlocks) == bs.single;
    Unet57RawNonNegative(bs.double, bs.single);
  }

  /** Norms are non-negative, so every raw strength is too. */
  lemma CaseRawNonNegative(tensors: seq<UB.Tensor>, c: FluxCase)
    ensures AllNonNegative(CaseRaw(BucketAll(tensors), c))
  {
    match c
    case TransformerCase => SortedStrengthsNonNegative(tensors, TransformerBlocks);
    case UnetCase => Unet57NonNegative(tensors);
    case DoubleCase => SortedStrengthsNonNegative(tensors, DoubleBlocks);
    case TeCase => SortedStrengthsNonNegative(tensors, TeBlocks);
  }

  /**
   * "Block weights are normalised so the strongest block = 1.0": with a
   * rounding that keeps [0, 1] in [0, 1], every weight of a Flux result
   * lies in [0, 1], and when some strength is positive and the rounding
   * keeps 1, some weight is exactly 1.
   */
  lemma FluxWeightsAreUnitScaled(filePath: string, baseCode: Option<string>, tensors: seq<UB.Tensor>, round: real -> real)
    requires CaseOf(BucketAll(tensors)).Some?
    requires forall x | 0.0 <= x <= 1.0 :: 0.0 <= round(x) <= 1.0
    ensures var bs := BucketAll(tensors);
            var a := FluxResult(filePath, baseCode, bs, CaseOf(bs).value, round);
            (forall i | 0 <= i < |a.blockWeights| :: 0.0 <= a.blockWeights[i] <= 1.0)
            && |a.blockWeights| == |a.rawBlockStrengths|
            && (a.rawBlockStrengths != [] && Max(a.rawBlockStrengths) > 0.0 && round(1.0) == 1.0 ==> 1.0 in a.blockWeights)
  {
    var bs := BucketAll(tensors);
    CaseRawNonNegative(tensors, CaseOf(bs).value);
    NormaliseBounds(CaseRaw(bs, CaseOf(bs).value), round);
  }

  /** `_analyse_flux_blocks` over the file's tensors. */
  method AnalyseFluxBlocks(filePath: string, baseCode: Option<string>, tensors: seq<UB.Tensor>, round: real -> real)
    returns (r: Result<LoraAnalysis, InspectError>)
    ensures var bs := BucketAll(tensors);
            CaseOf(bs).None? ==> r == Err(NoFluxStructure)
    ensures var bs := BucketAll(tensors);
            CaseOf(bs).Some? ==> r == Ok(FluxResult(filePath, baseCode, bs, CaseOf(bs).value, round))
  {
    var bs := BucketTensors(tensors);
    var c := CaseOf(bs);
    if c.None? {
      return Err(NoFluxStructure);
    }
    var raw, norm;
    match c.value {
      case TransformerCase =>
        var indices;
        indices, raw, norm := AccumulateBlockStrengths(bs.transformer, round);
      case UnetCase =>
        raw, norm := ComputeFluxUnet57Strengths(bs.double, bs.single, round);
      case DoubleCase =>
        var indices;
        indices, raw, norm := AccumulateBlockStrengths(bs.double, round);
      case TeCase =>
        var indices;
        indices, raw, norm := AccumulateBlockStrengths(bs.te, round);
    }
    r := Ok(LoraAnalysis(filePath, "Flux", baseCode, LoraTypeLabel(c.value), None, Some(LayoutLabel(c.value)), norm, raw));
  }

  // ---------------------------------------------------------------
  // `inspect_lora`
  // ---------------------------------------------------------------

  datatype Dispatch = FluxAnalysis(fluxCode: Option<string>) | WanPlaceholder(wanCode: string) | Unsupported

  /** The dispatch on `(base_model_code or "").upper()`. */
  function DispatchOf(baseCode: Option<string>): (d: Dispatch)
    ensures d.FluxAnalysis? <==> Upper(OrEmpty(baseCode)) in {"FLX", "FLK", ""}
    ensures d.WanPlaceholder? <==> Upper(OrEmpty(baseCode)) in {"W21", "W22"}
    ensures d.FluxAnalysis? ==> d.fluxCode == if Upper(OrEmpty(baseCode)) == "" then None else Some(Upper(OrEmpty(baseCode)))
    ensures d.WanPlaceholder? ==> d.wanCode == Upper(OrEmpty(baseCode))
  {
    var code := Upper(OrEmpty(baseCode));
    if code in {"FLX", "FLK", ""} then FluxAnalysis(if code == "" then None else Some(code))
    else if code in {"W21", "W22"} then WanPlaceholder(code)
    else Unsupported
  }

  lemma UpperOfLower(s: string)
    ensures Upper(Lower(s)) == Upper(s)
  {
    assert forall i | 0 <= i < |s| :: UpperChar(LowerChar(s[i])) == UpperChar(s[i]);
  }

  lemma UpperIdempotent(s: string)
    ensures Upper(Upper(s)) == Upper(s)
  {
    assert forall i | 0 <= i < |s| :: UpperChar(UpperChar(s[i])) == UpperChar(s[i]);
  }

  /** The base code is matched regardless of case, and a missing code is read as the empty one. */
  lemma DispatchIgnoresCase(code: string)
    ensures DispatchOf(Some(Lower(code))) == DispatchOf(Some(code))
    ensures DispatchOf(Some(Upper(code))) == DispatchOf(Some(code))
    ensures DispatchOf(None) == DispatchOf(Some("")) == FluxAnalysis(None)
  {
    UpperOfLower(code);
    UpperIdempotent(code);
    assert Upper("") == "";
  }

  /** The WAN placeholder: metadata only, no weights and no layout. */
  function WanPlaceholderAnalysis(filePath: string, code: string): (a: LoraAnalysis)
    ensures a.blockLayout.None? && a.blockWeights == [] && a.rawBlockStrengths == [] && a.rank.None?
    ensures a.baseModelCode == Some(code)
  {
    LoraAnalysis(filePath, "WAN", Some(code), "WAN (unimplemented)", None, None, [], [])
  }

  /**
   * `inspect_lora`: a missing file is an error; Flux codes (and no code)
   * are analysed, WAN codes get the placeholder, and every other code is
   * not supported.
   */
  method InspectLora(filePath: string, fileExists: bool, baseCode: Option<string>, tensors: seq<UB.Tensor>, round: real -> real)
    returns (r: Result<LoraAnalysis, InspectError>)
    ensures !fileExists ==> r == Err(FileNotFound)
    ensures fileExists && DispatchOf(baseCode).Unsupported? ==> r == Err(UnsupportedBaseModel(baseCode))
    ensures fileExists && DispatchOf(baseCode).WanPlaceholder? ==>
              r == Ok(WanPlaceholderAnalysis(filePath, DispatchOf(baseCode).wanCode))
    ensures var bs := BucketAll(tensors);
            fileExists && DispatchOf(baseCode).FluxAnalysis? ==>
              if CaseOf(bs).None? then r == Err(NoFluxStructure)
              else r == Ok(FluxResult(filePath, DispatchOf(baseCode).fluxCode, bs, CaseOf(bs).value, round))
  {
    if !fileExists {
      return Err(FileNotFound);
    }
    match DispatchOf(baseCode) {
      case FluxAnalysis(code) =>
        r := AnalyseFluxBlocks(filePath, code, tensors, round);
      case WanPlaceholder(code) =>
        r := Ok(WanPlaceholderAnalysis(filePath, code));
      case Unsupported =>
        r := Err(UnsupportedBaseModel(baseCode));
    }
  }
}
