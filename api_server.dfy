/**
 * ApiServer: the decisions the HTTP server takes around block layouts and
 * block-weight payloads: the Flux fallback layout, the validation of search
 * rows and of block responses, the neutral fallback profile, the length
 * check on user profiles, the layout back-fill and re-analysis, and the
 * request pre-processing and include/exclude loop of the combine endpoint.
 * Database reads are inputs (rows, maps from ids to rows); database writes
 * are returned values.
 */
module ApiServer {
  import opened Text
  import opened BlockLayouts
  import opened Composer
  import opened WeightRows

  // ---------------------------------------------------------------
  // The Flux fallback layout
  // ---------------------------------------------------------------

  /** `_should_force_flux_fallback_layout`: Flux and Flux-Krea rows without blocks show 16 neutral blocks. */
  predicate ShouldForceFluxFallbackLayout(baseModelCode: Option<string>, hasBlocks: bool)
  {
    !hasBlocks && Upper(OrEmpty(baseModelCode)) in {"FLX", "FLK"}
  }

  /** `(code or "").upper() or None` */
  function UpperOrNone(code: Option<string>): (r: Option<string>)
    ensures r.Some? <==> Truthy(code)
    ensures r.Some? ==> IsUpperCase(r.value)
  {
    UpperIsUpperCase(OrEmpty(code));
    if OrEmpty(code) == "" then None else Some(Upper(OrEmpty(code)))
  }

  /** The callers upper-case the code first; that changes nothing about the decision. */
  lemma ForceIgnoresCodeCase(code: Option<string>, hasBlocks: bool)
    ensures ShouldForceFluxFallbackLayout(UpperOrNone(code), hasBlocks) == ShouldForceFluxFallbackLayout(code, hasBlocks)
  {
    UpperIdempotent(OrEmpty(code));
    if !Truthy(code) {
      assert OrEmpty(code) == "" && Upper("") == "";
    }
  }

  /** Only Flux and Flux-Krea codes, in any letter case, force the fallback, and only without blocks. */
  lemma ForceOnlyForFlux(code: string, hasBlocks: bool)
    ensures ShouldForceFluxFallbackLayout(Some(code), hasBlocks)
            <==> !hasBlocks && |code| == 3 && (Upper(code) == "FLX" || Upper(code) == "FLK")
  {
  }

  // ---------------------------------------------------------------
  // Search rows
  // ---------------------------------------------------------------

  datatype SearchRow = SearchRow(baseModelCode: Option<string>, hasBlockWeights: bool, blockLayout: Option<string>)

  function InvalidLayoutWarning(raw: string, outcome: string): string
  {
    "Invalid block_layout '" + raw + "' normalized to " + outcome + "."
  }

  /**
   * `validate_block_layout_for_search_row`: a forced row shows
   * `flux_fallback_16`, any other row its normalised layout; a non-empty
   * stored layout that the parser rejects gives exactly one warning, which
   * names the replacement.
   */
  method ValidateBlockLayoutForSearchRow(row: SearchRow) returns (layout: Option<string>, warnings: seq<string>)
    ensures layout == if ShouldForceFluxFallbackLayout(row.baseModelCode, row.hasBlockWeights)
                      then Some(FluxFallback16) else NormalizeBlockLayout(row.blockLayout)
    ensures NormalizeBlockLayout(layout) == layout
    ensures warnings == if Truthy(row.blockLayout) && NormalizeBlockLayout(row.blockLayout).None?
                        then [InvalidLayoutWarning(row.blockLayout.value,
                                if ShouldForceFluxFallbackLayout(row.baseModelCode, row.hasBlockWeights)
                                then "fallback" else "null")]
                        else []
  {
    warnings := [];
    var baseCode := UpperOrNone(row.baseModelCode);
    var rawLayout := row.blockLayout;
    layout := NormalizeBlockLayout(rawLayout);
    ForceIgnoresCodeCase(row.baseModelCode, row.hasBlockWeights);
    if ShouldForceFluxFallbackLayout(baseCode, row.hasBlockWeights) {
      if layout != Some(FluxFallback16) {
        if layout.None? && Truthy(rawLayout) {
          warnings := warnings + [InvalidLayoutWarning(rawLayout.value, "fallback")];
        }
        layout := Some(FluxFallback16);
      }
    }
    if Truthy(rawLayout) && layout.None? {
      warnings := warnings + [InvalidLayoutWarning(rawLayout.value, "null")];
    }
    NormalizeIdempotent(rawLayout);
  }

  // ---------------------------------------------------------------
  // Re-analysis candidates
  // ---------------------------------------------------------------

  const FluxUnet57Label := "flux_unet_57"

  /** `_is_unet57_candidate_row` */
  predicate IsUnet57CandidateRow(blockLayout: Option<string>, loraType: Option<string>)
  {
    var layout := NormalizeBlockLayout(blockLayout);
    if layout == Some(Unet57) || layout == Some(FluxUnet57Label) then true
    else
      var t := Lower(OrEmpty(loraType));
      Contains(t, "unet") && Contains(t, "57")
  }

  /** `flux_unet_57` is not a layout the parser accepts. */
  lemma FluxUnet57IsNotALayout()
    ensures NormalizeBlockLayout(Some(FluxUnet57Label)) == None
  {
    var s := FluxUnet57Label;
    assert s != FluxFallback16 by { assert s[5] != FluxFallback16[5]; }
    assert !StartsWith(s, TransformerPrefix);
    assert !StartsWith(s, DoublePrefix) by { assert s[5] != DoublePrefix[5]; }
    assert !StartsWith(s, TextEncoderPrefix) by { assert s[..8][5] != TextEncoderPrefix[5]; }
  }

  /**
   * A row is a candidate exactly when its layout normalises to `unet_57` or
   * its lower-cased type mentions both "unet" and "57": the `flux_unet_57`
   * alternative can never be taken.
   */
  lemma Unet57CandidateRule(blockLayout: Option<string>, loraType: Option<string>)
    ensures IsUnet57CandidateRow(blockLayout, loraType)
            <==> NormalizeBlockLayout(blockLayout) == Some(Unet57)
                 || (Contains(Lower(OrEmpty(loraType)), "unet") && Contains(Lower(OrEmpty(loraType)), "57"))
  {
    FluxUnet57IsNotALayout();
  }

  // ---------------------------------------------------------------
  // Block responses
  // ---------------------------------------------------------------

  /** One entry of a block payload. */
  datatype Block = Block(blockIndex: int, weight: Option<real>, rawStrength: Option<real>)

  predicate SortedByIndex(s: seq<Block>)
  {
    forall i, j | 0 <= i < j < |s| :: s[i].blockIndex <= s[j].blockIndex
  }

  /** Inserts `b` in front of the first entry whose index is not smaller. */
  function InsertByIndex(b: Block, s: seq<Block>): (r: seq<Block>)
    requires SortedByIndex(s)
    ensures SortedByIndex(r)
    ensures multiset(r) == multiset(s) + multiset{b}
    ensures |r| == |s| + 1
    ensures r[0] == if s == [] || b.blockIndex <= s[0].blockIndex then b else s[0]
    decreases |s|
  {
    if s == [] then [b]
    else if b.blockIndex <= s[0].blockIndex then
      ConsSorted(b, s);
      [b] + s
    else
      var rest := InsertByIndex(b, s[1..]);
      assert s == [s[0]] + s[1..];
      ConsSorted(s[0], rest);
      [s[0]] + rest
  }

  /** A block no later than the head of a sorted payload can go in front of it. */
  lemma ConsSorted(x: Block, t: seq<Block>)
    requires SortedByIndex(t) && (t != [] ==> x.blockIndex <= t[0].blockIndex)
    ensures SortedByIndex([x] + t)
  {
    var u := [x] + t;
    forall i, j | 0 <= i < j < |u| ensures u[i].blockIndex <= u[j].blockIndex {
      if i == 0 {
        assert u[j] == t[j - 1];
      }
    }
  }

  /** `sorted(blocks, key=block_index)`: ascending by index, a permutation of the input. */
  function SortByIndex(s: seq<Block>): (r: seq<Block>)
    ensures SortedByIndex(r)
    ensures multiset(r) == multiset(s)
    ensures |r| == |s|
    decreases |s|
  {
    if s == [] then []
    else
      assert s == [s[0]] + s[1..];
      InsertByIndex(s[0], SortByIndex(s[1..]))
  }

  /** Sorting an already sorted payload leaves it as it is. */
  lemma {:induction false} SortSortedIsIdentity(s: seq<Block>)
    requires SortedByIndex(s)
    ensures SortByIndex(s) == s
    decreases |s|
  {
    if s != [] {
      SortSortedIsIdentity(s[1..]);
    }
  }

  /** The blocks of `s` whose index is `k`, in the order of `s`. */
  function WithIndex(s: seq<Block>, k: int): seq<Block>
    decreases |s|
  {
    if s == [] then [] else IfIndex(s[0], k) + WithIndex(s[1..], k)
  }

  /** `[x]` when `x` has index `k`, else nothing. */
  function IfIndex(x: Block, k: int): seq<Block>
  {
    if x.blockIndex == k then [x] else []
  }

  /** Inserting `b` puts it in front of every block with the same index. */
  lemma {:induction false} InsertKeepsEqualOrder(b: Block, s: seq<Block>, k: int)
    requires SortedByIndex(s)
    ensures WithIndex(InsertByIndex(b, s), k) == IfIndex(b, k) + WithIndex(s, k)
    decreases |s|
  {
    if s == [] || b.blockIndex <= s[0].blockIndex {
      InsertFront(b, s);
      WithIndexCons(b, s, k);
    } else {
      InsertBehind(b, s);
      InsertKeepsEqualOrder(b, s[1..], k);
      InsertedBehind(s[0], b, InsertByIndex(b, s[1..]), s[1..], k);
    }
  }

  /** Gluing step of InsertKeepsEqualOrder: a smaller head stays in front. */
  lemma InsertedBehind(x: Block, b: Block, t: seq<Block>, rest: seq<Block>, k: int)
    requires x.blockIndex < b.blockIndex
    requires WithIndex(t, k) == IfIndex(b, k) + WithIndex(rest, k)
    ensures WithIndex([x] + t, k) == IfIndex(b, k) + WithIndex([x] + rest, k)
  {
    WithIndexCons(x, t, k);
    WithIndexCons(x, rest, k);
    var w := WithIndex(rest, k);
    var hx, hb := IfIndex(x, k), IfIndex(b, k);
    if b.blockIndex == k {
      assert hx == [];
      assert hx + (hb + w) == hb + w == hb + (hx + w);
    } else {
      assert hb == [];
      assert hx + (hb + w) == hx + w == hb + (hx + w);
    }
  }

  lemma InsertFront(b: Block, s: seq<Block>)
    requires SortedByIndex(s) && (s == [] || b.blockIndex <= s[0].blockIndex)
    ensures InsertByIndex(b, s) == [b] + s
  {
  }

  lemma InsertBehind(b: Block, s: seq<Block>)
    requires SortedByIndex(s) && s != [] && b.blockIndex > s[0].blockIndex
    ensures SortedByIndex(s[1..]) && InsertByIndex(b, s) == [s[0]] + InsertByIndex(b, s[1..])
    ensures s == [s[0]] + s[1..]
  {
  }

  lemma WithIndexCons(x: Block, t: seq<Block>, k: int)
    ensures WithIndex([x] + t, k) == IfIndex(x, k) + WithIndex(t, k)
  {
    assert ([x] + t)[1..] == t;
  }

  /** The sort is stable: blocks with equal indices keep their order in the payload. */
  lemma {:induction false} SortByIndexStable(s: seq<Block>, k: int)
    ensures WithIndex(SortByIndex(s), k) == WithIndex(s, k)
    decreases |s|
  {
    if s != [] {
      SortByIndexStable(s[1..], k);
      InsertKeepsEqualOrder(s[0], SortByIndex(s[1..]), k);
    }
  }

  /** `min(indices)` */
  function MinBlockIndex(s: seq<Block>): (m: int)
    requires s != []
    ensures forall i | 0 <= i < |s| :: m <= s[i].blockIndex
    ensures exists i | 0 <= i < |s| :: m == s[i].blockIndex
    decreases |s|
  {
    if |s| == 1 then s[0].blockIndex
    else
      var m := MinBlockIndex(s[..|s| - 1]);
      var last := s[|s| - 1].blockIndex;
      assert forall i | 0 <= i < |s| - 1 :: s[..|s| - 1][i] == s[i];
      if m <= last then m else last
  }

  /** `indices == list(range(min(indices), min(indices) + len(indices)))` */
  predicate Contiguous(s: seq<Block>)
  {
    s != [] ==> forall i | 0 <= i < |s| :: s[i].blockIndex == MinBlockIndex(s) + i
  }

  /** For a sorted payload the minimum is the first index, so contiguous means "each index one more than the last". */
  lemma ContiguousSorted(s: seq<Block>)
    requires SortedByIndex(s) && s != []
    ensures Contiguous(s) <==> forall i | 0 < i < |s| :: s[i].blockIndex == s[i - 1].blockIndex + 1
  {
    assert MinBlockIndex(s) == s[0].blockIndex;
    if forall i | 0 < i < |s| :: s[i].blockIndex == s[i - 1].blockIndex + 1 {
      var k := 0;
      while k < |s|
        invariant 0 <= k <= |s|
        invariant forall i | 0 <= i < k :: s[i].blockIndex == s[0].blockIndex + i
      {
        if k > 0 {
          assert s[k].blockIndex == s[k - 1].blockIndex + 1;
        }
        k := k + 1;
      }
    }
  }

  predicate WeightOutOfRange(b: Block)
  {
    b.weight.Some? && (b.weight.value < 0.0 || b.weight.value > 1.0)
  }

  predicate AnyWeightOutOfRange(s: seq<Block>)
  {
    exists i | 0 <= i < |s| :: WeightOutOfRange(s[i])
  }

  /** Whether some weight is out of range does not depend on the order of the payload. */
  lemma OutOfRangeOrderFree(s: seq<Block>, t: seq<Block>)
    requires multiset(s) == multiset(t)
    ensures AnyWeightOutOfRange(s) <==> AnyWeightOutOfRange(t)
  {
    if AnyWeightOutOfRange(s) {
      var i :| 0 <= i < |s| && WeightOutOfRange(s[i]);
      assert s[i] in multiset(t);
      var j :| 0 <= j < |t| && t[j] == s[i];
    }
    if AnyWeightOutOfRange(t) {
      var j :| 0 <= j < |t| && WeightOutOfRange(t[j]);
      assert t[j] in multiset(s);
      var i :| 0 <= i < |s| && s[i] == t[j];
    }
  }

  /** The weight loop: missing weights are skipped and the scan stops at the first weight outside [0,1]. */
  method ScanWeightRange(blocks: seq<Block>) returns (outOfRange: bool)
    ensures outOfRange <==> AnyWeightOutOfRange(blocks)
  {
    outOfRange := false;
    var i := 0;
    while i < |blocks|
      invariant 0 <= i <= |blocks|
      invariant forall k | 0 <= k < i :: !WeightOutOfRange(blocks[k])
    {
      var w := blocks[i].weight;
      if w.None? {
        i := i + 1;
        continue;
      }
      if w.value < 0.0 || w.value > 1.0 {
        outOfRange := true;
        break;
      }
      i := i + 1;
    }
  }

  const NotContiguousWarning := "block_index values are not contiguous; UI may display gaps."
  const WeightRangeWarning := "One or more block weights fall outside [0,1]."

  function CountMismatchWarning(layout: string, expected: nat, n: nat): string
  {
    "block_layout '" + layout + "' expects " + NatToString(expected) + " blocks but response has " + NatToString(n) + "."
  }

  function UnknownCountWarning(n: nat): string
  {
    "block_layout is null and block count " + NatToString(n) + " does not match a known layout."
  }

  /** The stored layout after normalisation and the Flux fallback rule. */
  function StatedLayout(baseModelCode: Option<string>, hasBlocks: bool, blockLayout: Option<string>): Option<string>
  {
    if ShouldForceFluxFallbackLayout(baseModelCode, hasBlocks) then Some(FluxFallback16)
    else NormalizeBlockLayout(blockLayout)
  }

  /** The layout `validate_blocks_response` returns for a payload of `n` blocks. */
  function ResponseLayout(baseModelCode: Option<string>, hasBlocks: bool, blockLayout: Option<string>,
                          n: nat, fallback: bool): (r: Option<string>)
    ensures !fallback && n > 0 ==> r.Some?
    ensures r != StatedLayout(baseModelCode, hasBlocks, blockLayout)
            ==> !fallback && n > 0 && StatedLayout(baseModelCode, hasBlocks, blockLayout).None?
  {
    var stated := StatedLayout(baseModelCode, hasBlocks, blockLayout);
    if !fallback && n > 0 && stated.None? then InferLayoutFromBlockCount(n) else stated
  }

  /** The count warning: a known layout whose expected count differs from the payload's. */
  function CountWarnings(layout: Option<string>, n: nat): seq<string>
  {
    if n > 0 && layout.Some? && ExpectedBlockCountForLayout(layout).Some?
       && ExpectedBlockCountForLayout(layout).value != n
    then [CountMismatchWarning(layout.value, ExpectedBlockCountForLayout(layout).value, n)]
    else []
  }

  /** The warning about a stored layout that is set but not recognised. */
  function InvalidStoredWarnings(blockLayout: Option<string>): seq<string>
  {
    if Truthy(blockLayout) && NormalizeBlockLayout(blockLayout).None?
    then [InvalidLayoutWarning(blockLayout.value, "null")] else []
  }

  /** The warnings about the layout: an unrecognised stored layout, then a count mismatch. */
  function LayoutWarnings(baseModelCode: Option<string>, hasBlocks: bool, blockLayout: Option<string>,
                          n: nat, fallback: bool): seq<string>
  {
    InvalidStoredWarnings(blockLayout)
    + CountWarnings(ResponseLayout(baseModelCode, hasBlocks, blockLayout, n, fallback), n)
  }

  /** The warnings about the payload itself: gaps in the sorted indices, then weights outside [0,1]. */
  function ShapeWarnings(blocks: seq<Block>): seq<string>
  {
    (if blocks != [] && !Contiguous(SortByIndex(blocks)) then [NotContiguousWarning] else [])
    + (if AnyWeightOutOfRange(blocks) then [WeightRangeWarning] else [])
  }

  /** The warnings of `validate_blocks_response`, in the order they are appended. */
  function ResponseWarnings(baseModelCode: Option<string>, hasBlocks: bool, blockLayout: Option<string>,
                            blocks: seq<Block>, fallback: bool): seq<string>
  {
    LayoutWarnings(baseModelCode, hasBlocks, blockLayout, |blocks|, fallback) + ShapeWarnings(blocks)
  }

  /**
   * `validate_blocks_response`: the layout is normalised, forced or
   * inferred, the blocks come back sorted by index, and every problem is a
   * warning rather than a failure.
   */
  method ValidateBlocksResponse(baseModelCode: Option<string>, hasBlocks: bool, blockLayout: Option<string>,
                                blocks: seq<Block>, fallback: bool)
    returns (layout: Option<string>, finalBlocks: seq<Block>, warnings: seq<string>)
    ensures layout == ResponseLayout(baseModelCode, hasBlocks, blockLayout, |blocks|, fallback)
    ensures finalBlocks == SortByIndex(blocks)
    ensures warnings == ResponseWarnings(baseModelCode, hasBlocks, blockLayout, blocks, fallback)
  {
    var layoutWarnings;
    layout, layoutWarnings := ResolveResponseLayout(baseModelCode, hasBlocks, blockLayout, |blocks|, fallback);
    var shapeWarnings;
    finalBlocks, shapeWarnings := CheckPayloadShape(blocks);
    warnings := layoutWarnings + shapeWarnings;
  }

  /**
   * The layout steps of `validate_blocks_response` for a payload of `n`
   * blocks. The "does not match a known layout" warning cannot occur,
   * because every positive count infers a layout.
   */
  method ResolveResponseLayout(baseModelCode: Option<string>, hasBlocks: bool, blockLayout: Option<string>,
                               n: nat, fallback: bool)
    returns (layout: Option<string>, warnings: seq<string>)
    ensures layout == ResponseLayout(baseModelCode, hasBlocks, blockLayout, n, fallback)
    ensures warnings == LayoutWarnings(baseModelCode, hasBlocks, blockLayout, n, fallback)
  {
    layout, warnings := ChooseLayout(baseModelCode, hasBlocks, blockLayout, n, fallback);
    var countWarnings := CheckLayoutCount(layout, n);
    warnings := warnings + countWarnings;
  }

  /** Normalise the stored layout, warn when it is not recognised, force the Flux fallback, infer from the count. */
  method ChooseLayout(baseModelCode: Option<string>, hasBlocks: bool, blockLayout: Option<string>,
                      n: nat, fallback: bool)
    returns (layout: Option<string>, warnings: seq<string>)
    ensures layout == ResponseLayout(baseModelCode, hasBlocks, blockLayout, n, fallback)
    ensures warnings == InvalidStoredWarnings(blockLayout)
  {
    warnings := [];
    var baseCode := UpperOrNone(baseModelCode);
    layout := NormalizeBlockLayout(blockLayout);
    if Truthy(blockLayout) && layout.None? {
      warnings := warnings + [InvalidLayoutWarning(blockLayout.value, "null")];
    }
    ForceIgnoresCodeCase(baseModelCode, hasBlocks);
    if ShouldForceFluxFallbackLayout(baseCode, hasBlocks) {
      if layout != Some(FluxFallback16) {
        layout := Some(FluxFallback16);
      }
    }
    if !fallback && n > 0 && layout.None? {
      var inferred := InferLayoutFromBlockCount(n);
      if inferred.Some? {
        layout := inferred;
      } else {
        warnings := warnings + [UnknownCountWarning(n)];
      }
    }
  }

  /** Warn when a known layout expects a different number of blocks than the payload has. */
  method CheckLayoutCount(layout: Option<string>, n: nat) returns (warnings: seq<string>)
    ensures warnings == CountWarnings(layout, n)
  {
    warnings := [];
    if n > 0 && layout.Some? {
      var expected := ExpectedBlockCountForLayout(layout);
      if expected.Some? && n != expected.value {
        warnings := warnings + [CountMismatchWarning(layout.value, expected.value, n)];
      }
    }
  }

  /** The shape steps of `validate_blocks_response`: sort, check the indices, scan the weights. */
  method CheckPayloadShape(blocks: seq<Block>) returns (sorted: seq<Block>, warnings: seq<string>)
    ensures sorted == SortByIndex(blocks)
    ensures warnings == ShapeWarnings(blocks)
  {
    warnings := [];
    sorted := blocks;
    if blocks != [] {
      sorted := SortByIndex(blocks);
      if !Contiguous(sorted) {
        warnings := warnings + [NotContiguousWarning];
      }
      var outOfRange := ScanWeightRange(sorted);
      OutOfRangeOrderFree(sorted, blocks);
      if outOfRange {
        warnings := warnings + [WeightRangeWarning];
      }
    }
  }

  /** An inferred layout always expects exactly the payload's block count, so it never draws the count warning. */
  lemma InferredLayoutFitsCount(baseModelCode: Option<string>, hasBlocks: bool, blockLayout: Option<string>,
                                n: nat, fallback: bool)
    requires ResponseLayout(baseModelCode, hasBlocks, blockLayout, n, fallback)
             != StatedLayout(baseModelCode, hasBlocks, blockLayout)
    ensures ExpectedBlockCountForLayout(ResponseLayout(baseModelCode, hasBlocks, blockLayout, n, fallback)) == Some(n)
    ensures CountWarnings(ResponseLayout(baseModelCode, hasBlocks, blockLayout, n, fallback), n) == []
  {
    InferLayoutRoundTrip(n);
  }

  /** The count warning fires exactly when a known layout disagrees with a non-empty payload. */
  lemma CountWarningRule(layout: Option<string>, n: nat)
    ensures |CountWarnings(layout, n)| <= 1
    ensures CountWarnings(layout, n) != []
            <==> (n > 0 && ExpectedBlockCountForLayout(layout).Some? && ExpectedBlockCountForLayout(layout).value != n)
  {
  }

  /** Every kind of warning appears at most once, so a response carries at most four. */
  lemma ResponseWarningsBound(baseModelCode: Option<string>, hasBlocks: bool, blockLayout: Option<string>,
                              blocks: seq<Block>, fallback: bool)
    ensures |ResponseWarnings(baseModelCode, hasBlocks, blockLayout, blocks, fallback)| <= 4
    ensures WeightRangeWarning in ResponseWarnings(baseModelCode, hasBlocks, blockLayout, blocks, fallback)
            <==> AnyWeightOutOfRange(blocks)
  {
    var lw := LayoutWarnings(baseModelCode, hasBlocks, blockLayout, |blocks|, fallback);
    var sw := ShapeWarnings(blocks);
    LayoutWarningsFacts(baseModelCode, hasBlocks, blockLayout, |blocks|, fallback);
    ShapeWarningsFacts(blocks);
    assert ResponseWarnings(baseModelCode, hasBlocks, blockLayout, blocks, fallback) == lw + sw;
  }

  /** At most two layout warnings, neither of them the weight-range warning. */
  lemma LayoutWarningsFacts(baseModelCode: Option<string>, hasBlocks: bool, blockLayout: Option<string>,
                            n: nat, fallback: bool)
    ensures |LayoutWarnings(baseModelCode, hasBlocks, blockLayout, n, fallback)| <= 2
    ensures WeightRangeWarning !in LayoutWarnings(baseModelCode, hasBlocks, blockLayout, n, fallback)
  {
    var layout := ResponseLayout(baseModelCode, hasBlocks, blockLayout, n, fallback);
    var a := if Truthy(blockLayout) && NormalizeBlockLayout(blockLayout).None?
             then [InvalidLayoutWarning(blockLayout.value, "null")] else [];
    var c := CountWarnings(layout, n);
    CountWarningRule(layout, n);
    if a != [] {
      InvalidLayoutIsNotRangeWarning(blockLayout.value);
    }
    if c != [] {
      CountMismatchIsNotRangeWarning(layout.value, ExpectedBlockCountForLayout(layout).value, n);
    }
    assert LayoutWarnings(baseModelCode, hasBlocks, blockLayout, n, fallback) == a + c;
  }

  /** At most two shape warnings; the weight-range one is there exactly when a weight is out of range. */
  lemma ShapeWarningsFacts(blocks: seq<Block>)
    ensures |ShapeWarnings(blocks)| <= 2
    ensures WeightRangeWarning in ShapeWarnings(blocks) <==> AnyWeightOutOfRange(blocks)
  {
    assert NotContiguousWarning[|NotContiguousWarning| - 2] == 's';
    assert WeightRangeWarning[|WeightRangeWarning| - 2] == ']';
  }

  lemma InvalidLayoutIsNotRangeWarning(raw: string)
    ensures InvalidLayoutWarning(raw, "null") != WeightRangeWarning
  {
    var w := InvalidLayoutWarning(raw, "null");
    assert w[|w| - 2] == 'l';
    assert WeightRangeWarning[|WeightRangeWarning| - 2] == ']';
  }

  lemma CountMismatchIsNotRangeWarning(layout: string, expected: nat, n: nat)
    ensures CountMismatchWarning(layout, expected, n) != WeightRangeWarning
  {
    var m := CountMismatchWarning(layout, expected, n);
    assert m[|m| - 2] == NatToString(n)[|NatToString(n)| - 1];
    assert IsDigit(m[|m| - 2]);
    assert WeightRangeWarning[|WeightRangeWarning| - 2] == ']';
  }

  // ---------------------------------------------------------------
  // The block endpoint
  // ---------------------------------------------------------------

  /** The `lora` row the block endpoint reads. */
  datatype BlocksRow = BlocksRow(hasBlockWeights: bool, loraType: Option<string>,
                                 blockLayout: Option<string>, baseModelCode: Option<string>)

  datatype BlocksResponse = BlocksResponse(
    hasBlockWeights: bool,
    blockLayout: Option<string>,
    fallback: bool,
    fallbackReason: Option<string>,
    blocks: seq<Block>,
    warnings: seq<string>)

  /** The neutral profile: `count` blocks numbered from 0, each of weight 1.0; none when there is no count. */
  function FallbackBlocks(count: Option<nat>): (r: seq<Block>)
    ensures |r| == if count.Some? then count.value else 0
    ensures forall i | 0 <= i < |r| :: r[i] == Block(i, Some(1.0), None)
  {
    if count.None? then [] else seq(count.value, i requires 0 <= i < count.value => Block(i, Some(1.0), None))
  }

  /** The neutral profile is sorted, contiguous and in range. */
  lemma FallbackBlocksWellFormed(count: Option<nat>)
    ensures SortedByIndex(FallbackBlocks(count))
    ensures SortByIndex(FallbackBlocks(count)) == FallbackBlocks(count)
    ensures Contiguous(FallbackBlocks(count))
    ensures !AnyWeightOutOfRange(FallbackBlocks(count))
  {
    var s := FallbackBlocks(count);
    SortSortedIsIdentity(s);
    if s != [] {
      assert MinBlockIndex(s) == 0 by {
        assert MinBlockIndex(s) <= s[0].blockIndex;
      }
    }
  }

  /** Validating the neutral profile of the stated layout only checks its count. */
  lemma FallbackWarnings(baseModelCode: Option<string>, blockLayout: Option<string>, stated: Option<string>,
                         count: Option<nat>)
    requires stated == StatedLayout(baseModelCode, false, blockLayout)
    ensures ResponseLayout(baseModelCode, false, stated, |FallbackBlocks(count)|, count.Some?) == stated
    ensures ResponseWarnings(baseModelCode, false, stated, FallbackBlocks(count), count.Some?)
            == CountWarnings(stated, |FallbackBlocks(count)|)
  {
    StatedIsStable(baseModelCode, blockLayout, stated);
    QuietLayout(baseModelCode, stated, |FallbackBlocks(count)|, count.Some?);
    FallbackShapeQuiet(count);
  }

  /** A stable stated layout that is not inferred from the count draws at most the count warning. */
  lemma QuietLayout(baseModelCode: Option<string>, stated: Option<string>, n: nat, fallback: bool)
    requires StatedLayout(baseModelCode, false, stated) == stated && InvalidStoredWarnings(stated) == []
    requires fallback || n == 0
    ensures ResponseLayout(baseModelCode, false, stated, n, fallback) == stated
    ensures LayoutWarnings(baseModelCode, false, stated, n, fallback) == CountWarnings(stated, n)
  {
  }

  /** Stating an already stated layout again gives it back, with no invalid-layout warning. */
  lemma StatedIsStable(baseModelCode: Option<string>, blockLayout: Option<string>, stated: Option<string>)
    requires stated == StatedLayout(baseModelCode, false, blockLayout)
    ensures StatedLayout(baseModelCode, false, stated) == stated
    ensures InvalidStoredWarnings(stated) == []
  {
    NormalizeIdempotent(blockLayout);
  }

  lemma FallbackShapeQuiet(count: Option<nat>)
    ensures ShapeWarnings(FallbackBlocks(count)) == []
  {
    FallbackBlocksWellFormed(count);
  }

  function FallbackReason(layout: string): string
  {
    "No stored block weights; using neutral fallback profile for layout " + layout
  }

  /**
   * `api_lora_blocks` for a found row. Without stored weights the response
   * is the neutral profile of the layout's fallback count (the count
   * function `fallbackBlockCount` is an input); with stored weights it is
   * those rows, in index order.
   */
  method ApiLoraBlocks(row: BlocksRow, storedBlocks: seq<Block>, fallbackBlockCount: Option<string> -> Option<nat>)
    returns (r: BlocksResponse)
    ensures !row.hasBlockWeights ==>
      var stated := StatedLayout(row.baseModelCode, false, row.blockLayout);
      var count := fallbackBlockCount(stated);
      && r.fallback == count.Some?
      && r.blocks == FallbackBlocks(count)
      && r.blockLayout == stated
      && r.fallbackReason == (if count.Some? && stated.Some? then Some(FallbackReason(stated.value)) else None)
      && r.warnings == CountWarnings(stated, |r.blocks|)
      && !r.hasBlockWeights
    ensures row.hasBlockWeights ==>
      && !r.fallback && r.fallbackReason.None?
      && r.blocks == SortByIndex(storedBlocks)
      && r.blockLayout == ResponseLayout(row.baseModelCode, true, row.blockLayout, |storedBlocks|, false)
      && r.warnings == ResponseWarnings(row.baseModelCode, true, row.blockLayout, storedBlocks, false)
      && (r.hasBlockWeights <==> storedBlocks != [])
  {
    if !row.hasBlockWeights {
      var normalized := NormalizeBlockLayout(row.blockLayout);
      if ShouldForceFluxFallbackLayout(row.baseModelCode, false) {
        normalized := Some(FluxFallback16);
      }
      var count := fallbackBlockCount(normalized);
      var fallback := count.Some?;
      var reason := if fallback && normalized.Some? then Some(FallbackReason(normalized.value)) else None;
      var fallbackBlocks := FallbackBlocks(count);
      var finalLayout, finalBlocks, warnings :=
        ValidateBlocksResponse(row.baseModelCode, false, normalized, fallbackBlocks, fallback);
      NormalizeIdempotent(row.blockLayout);
      ForceIgnoresCodeCase(row.baseModelCode, false);
      assert normalized == StatedLayout(row.baseModelCode, false, row.blockLayout);
      FallbackWarnings(row.baseModelCode, row.blockLayout, normalized, count);
      FallbackBlocksWellFormed(count);
      return BlocksResponse(false, finalLayout, fallback, reason, finalBlocks, warnings);
    }
    var finalLayout, finalBlocks, warnings :=
      ValidateBlocksResponse(row.baseModelCode, true, row.blockLayout, storedBlocks, false);
    r := BlocksResponse(finalBlocks != [], finalLayout, false, None, finalBlocks, warnings);
  }

  // ---------------------------------------------------------------
  // User profiles
  // ---------------------------------------------------------------

  function ProfileLengthError(n: nat, expected: nat, layout: string): string
  {
    "block_weights length " + NatToString(n) + " does not match expected " + NatToString(expected)
    + " for layout '" + layout + "'."
  }

  /** The length check of profile create and update: reject a list whose length differs from a known expected count. */
  function CheckProfileLength(layout: Option<string>, blockWeights: seq<real>): (r: Result<seq<real>, string>)
    ensures r.Err? <==> ExpectedBlockCountForLayout(layout).Some?
                        && |blockWeights| != ExpectedBlockCountForLayout(layout).value
    ensures r.Ok? ==> r.value == blockWeights
  {
    if Truthy(layout) then
      var expected := ExpectedBlockCountForLayout(layout);
      if expected.Some? && |blockWeights| != expected.value
      then Err(ProfileLengthError(|blockWeights|, expected.value, layout.value))
      else Ok(blockWeights)
    else
      Ok(blockWeights)
  }

  /**
   * The `block_weights` field of a request body: absent (or null), not a
   * list, a list with an entry `float()` rejects, or a list whose entries
   * `float()` accepts, given as the converted values.
   */
  datatype WeightsField = Absent | NotAList | NonNumeric | WeightList(values: seq<real>)

  datatype ProfileBody = ProfileBody(profileName: string, blockWeights: seq<real>)

  const ProfileNameRequired := "profile_name is required and must be non-empty."
  const ProfileNameEmpty := "profile_name must be non-empty if provided."
  const WeightsNotAList := "block_weights must be an array of floats."
  const WeightsNotNumeric := "All block_weights values must be numeric."

  /** `api_lora_profiles_create` for a found LoRA whose stored layout is `layout`. */
  function CreateProfile(profileName: Option<string>, blockWeights: WeightsField, layout: Option<string>)
    : (r: Result<ProfileBody, string>)
    ensures r.Ok? <==> Strip(OrEmpty(profileName)) != "" && blockWeights.WeightList?
                       && CheckProfileLength(layout, blockWeights.values).Ok?
    ensures r.Ok? ==> r.value.profileName == Strip(OrEmpty(profileName)) && r.value.profileName != ""
    ensures r.Ok? ==> blockWeights.WeightList? && r.value.blockWeights == blockWeights.values
    ensures r.Ok? ==> ExpectedBlockCountForLayout(layout).None?
                      || |r.value.blockWeights| == ExpectedBlockCountForLayout(layout).value
    ensures Strip(OrEmpty(profileName)) == "" ==> r == Err(ProfileNameRequired)
    ensures Strip(OrEmpty(profileName)) != "" && (blockWeights.Absent? || blockWeights.NotAList?) ==> r == Err(WeightsNotAList)
    ensures Strip(OrEmpty(profileName)) != "" && blockWeights.NonNumeric? ==> r == Err(WeightsNotNumeric)
    ensures Strip(OrEmpty(profileName)) != "" && blockWeights.WeightList? && CheckProfileLength(layout, blockWeights.values).Err?
            ==> r == Err(CheckProfileLength(layout, blockWeights.values).error)
  {
    var name := Strip(OrEmpty(profileName));
    if name == "" then Err(ProfileNameRequired)
    else if blockWeights.NonNumeric? then Err(WeightsNotNumeric)
    else if !blockWeights.WeightList? then Err(WeightsNotAList)
    else
      match CheckProfileLength(layout, blockWeights.values)
      case Err(e) => Err(e)
      case Ok(w) => Ok(ProfileBody(name, w))
  }

  /**
   * `api_lora_profiles_update` for a found profile: absent fields keep the
   * stored values (`storedWeights` is the decoded stored list, empty when
   * it does not decode); only a new list is length-checked.
   */
  function UpdateProfile(profileName: Option<string>, blockWeights: WeightsField, layout: Option<string>,
                         existing: ProfileBody): (r: Result<ProfileBody, string>)
    ensures r.Ok? <==> (profileName.None? || Strip(profileName.value) != "")
                       && (blockWeights.Absent?
                           || (blockWeights.WeightList? && CheckProfileLength(layout, blockWeights.values).Ok?))
    ensures profileName.Some? && Strip(profileName.value) == "" ==> r == Err(ProfileNameEmpty)
    ensures (profileName.None? || Strip(profileName.value) != "") && blockWeights.NotAList? ==> r == Err(WeightsNotAList)
    ensures (profileName.None? || Strip(profileName.value) != "") && blockWeights.NonNumeric? ==> r == Err(WeightsNotNumeric)
    ensures (profileName.None? || Strip(profileName.value) != "") && blockWeights.WeightList?
            && CheckProfileLength(layout, blockWeights.values).Err?
            ==> r == Err(CheckProfileLength(layout, blockWeights.values).error)
    ensures r.Ok? && profileName.None? ==> r.value.profileName == existing.profileName
    ensures r.Ok? && profileName.Some? ==> r.value.profileName == Strip(profileName.value) && r.value.profileName != ""
    ensures r.Ok? && blockWeights.Absent? ==> r.value.blockWeights == existing.blockWeights
    ensures r.Ok? && !blockWeights.Absent? ==>
              blockWeights.WeightList? && r.value.blockWeights == blockWeights.values
              && (ExpectedBlockCountForLayout(layout).None?
                  || |r.value.blockWeights| == ExpectedBlockCountForLayout(layout).value)
  {
    var name := if profileName.Some? then Strip(profileName.value) else existing.profileName;
    if profileName.Some? && name == "" then Err(ProfileNameEmpty)
    else
      match blockWeights
      case Absent => Ok(ProfileBody(name, existing.blockWeights))
      case NotAList => Err(WeightsNotAList)
      case NonNumeric => Err(WeightsNotNumeric)
      case WeightList(values) =>
        match CheckProfileLength(layout, values)
        case Err(e) => Err(e)
        case Ok(w) => Ok(ProfileBody(name, w))
  }

  // ---------------------------------------------------------------
  // Layout back-fill and re-analysis
  // ---------------------------------------------------------------

  /** A `lora` row as the back-fill reads it. */
  datatype LayoutRow = LayoutRow(id: int, baseModelCode: Option<string>, hasBlockWeights: bool,
                                 loraType: Option<string>, blockLayout: Option<string>)

  /** `UPDATE lora SET block_layout = ? WHERE id = ?` */
  datatype LayoutUpdate = LayoutUpdate(id: int, blockLayout: Option<string>)

  /** `UPPER(COALESCE(base_model_code, '')) IN ('FLX', 'FLK')` */
  predicate IsFluxRow(row: LayoutRow)
  {
    Upper(OrEmpty(row.baseModelCode)) in {"FLX", "FLK"}
  }

  /**
   * The layout the back-fill wants for one Flux row: the fallback without
   * blocks, the stored layout when it is valid, and otherwise, when block
   * rows exist, one built from the type and the row count.
   */
  function BackfillLayout(hasBlocks: bool, rawLayout: Option<string>, loraType: Option<string>, count: nat)
    : Option<string>
  {
    var current := NormalizeBlockLayout(rawLayout);
    if !hasBlocks then Some(FluxFallback16)
    else if current.None? && count > 0 then BuiltLayout(loraType, count)
    else current
  }

  /** A layout built from the type and the block-row count: the type's own, else the generic transformer one, else inferred. */
  function BuiltLayout(loraType: Option<string>, count: nat): Option<string>
  {
    var made := NormalizeBlockLayout(MakeFluxLayout(loraType, count));
    var generic := if made.None? then NormalizeBlockLayout(Some(TransformerPrefix + NatToString(count))) else made;
    if generic.None? then InferLayoutFromBlockCount(count) else generic
  }

  /**
   * The back-fill leaves every row with a valid layout or none: the
   * fallback without blocks, the stored layout when it is valid, and a
   * layout that expects exactly the number of block rows otherwise. The
   * last alternative (inference from the count) is never reached, because
   * the generic transformer layout always parses.
   */
  lemma BackfillLayoutRule(hasBlocks: bool, rawLayout: Option<string>, loraType: Option<string>, count: nat)
    ensures NormalizeBlockLayout(BackfillLayout(hasBlocks, rawLayout, loraType, count))
            == BackfillLayout(hasBlocks, rawLayout, loraType, count)
    ensures !hasBlocks ==> BackfillLayout(hasBlocks, rawLayout, loraType, count) == Some(FluxFallback16)
    ensures hasBlocks && NormalizeBlockLayout(rawLayout).Some?
            ==> BackfillLayout(hasBlocks, rawLayout, loraType, count) == NormalizeBlockLayout(rawLayout)
    ensures hasBlocks && NormalizeBlockLayout(rawLayout).None? && count == 0
            ==> BackfillLayout(hasBlocks, rawLayout, loraType, count).None?
    ensures hasBlocks && NormalizeBlockLayout(rawLayout).None? && count > 0
            ==> BackfillLayout(hasBlocks, rawLayout, loraType, count).Some?
                && ExpectedBlockCountForLayout(BackfillLayout(hasBlocks, rawLayout, loraType, count)) == Some(count)
  {
    var current := NormalizeBlockLayout(rawLayout);
    var r := BackfillLayout(hasBlocks, rawLayout, loraType, count);
    if !hasBlocks {
      assert r == Some(FluxFallback16);
      FallbackIsNormal();
    } else if current.None? && count > 0 {
      assert r == BuiltLayout(loraType, count);
      BackfillFromCount(loraType, count);
    } else {
      assert r == current;
      NormalizeIdempotent(rawLayout);
    }
  }

  lemma FallbackIsNormal()
    ensures NormalizeBlockLayout(Some(FluxFallback16)) == Some(FluxFallback16)
  {
  }

  /** The layout built from the type and the block-row count is valid and expects that count. */
  lemma BackfillFromCount(loraType: Option<string>, count: nat)
    requires count > 0
    ensures BuiltLayout(loraType, count).Some?
    ensures NormalizeBlockLayout(BuiltLayout(loraType, count)) == BuiltLayout(loraType, count)
    ensures ExpectedBlockCountForLayout(BuiltLayout(loraType, count)) == Some(count)
  {
    if MakeFluxLayout(loraType, count).Some? {
      MakeFluxLayoutRoundTrip(loraType, count);
    } else {
      PrefixedCountParses(TransformerPrefix, count);
    }
  }

  /** Running the back-fill on its own result changes nothing: a second start-up writes no update. */
  lemma BackfillIdempotent(hasBlocks: bool, rawLayout: Option<string>, loraType: Option<string>, count: nat)
    ensures BackfillLayout(hasBlocks, BackfillLayout(hasBlocks, rawLayout, loraType, count), loraType, count)
            == BackfillLayout(hasBlocks, rawLayout, loraType, count)
  {
    BackfillLayoutRule(hasBlocks, rawLayout, loraType, count);
    var once := BackfillLayout(hasBlocks, rawLayout, loraType, count);
    BackfillLayoutRule(hasBlocks, once, loraType, count);
  }

  /** `COUNT(1)` of a row's block-weight rows; absent ids have none. */
  function BlockCountOf(counts: map<int, nat>, id: int): nat
  {
    if id in counts then counts[id] else 0
  }

  function BackfillFor(row: LayoutRow, counts: map<int, nat>): Option<string>
  {
    BackfillLayout(row.hasBlockWeights, row.blockLayout, row.loraType, BlockCountOf(counts, row.id))
  }

  /** The updates of `_backfill_flux_layouts`, in row order: one per Flux row whose layout changes. */
  function BackfillUpdates(rows: seq<LayoutRow>, counts: map<int, nat>): seq<LayoutUpdate>
    decreases |rows|
  {
    if rows == [] then []
    else
      var k := |rows| - 1;
      var row := rows[k];
      BackfillUpdates(rows[..k], counts)
      + (if IsFluxRow(row) && BackfillFor(row, counts) != row.blockLayout
         then [LayoutUpdate(row.id, BackfillFor(row, counts))] else [])
  }

  /** `_backfill_flux_layouts`: the updates it writes and their number. */
  method BackfillFluxLayouts(rows: seq<LayoutRow>, counts: map<int, nat>)
    returns (updates: seq<LayoutUpdate>, updateCount: nat)
    ensures updates == BackfillUpdates(rows, counts)
    ensures updateCount == |updates|
  {
    updates := [];
    updateCount := 0;
    var i := 0;
    while i < |rows|
      invariant 0 <= i <= |rows|
      invariant updates == BackfillUpdates(rows[..i], counts)
      invariant updateCount == |updates|
    {
      assert rows[..i + 1][..i] == rows[..i];
      var row := rows[i];
      if IsFluxRow(row) {
        var newLayout := BackfillFor(row, counts);
        if newLayout != row.blockLayout {
          updates := updates + [LayoutUpdate(row.id, newLayout)];
          updateCount := updateCount + 1;
        }
      }
      i := i + 1;
    }
    assert rows[..i] == rows;
  }

  /** Every update belongs to a Flux row and replaces its layout by the back-fill layout. */
  lemma {:induction false} BackfillUpdatesSound(rows: seq<LayoutRow>, counts: map<int, nat>, u: LayoutUpdate)
    requires u in BackfillUpdates(rows, counts)
    ensures exists i | 0 <= i < |rows| :: IsFluxRow(rows[i]) && u == LayoutUpdate(rows[i].id, BackfillFor(rows[i], counts))
                                          && BackfillFor(rows[i], counts) != rows[i].blockLayout
    decreases |rows|
  {
    var k := |rows| - 1;
    if u in BackfillUpdates(rows[..k], counts) {
      BackfillUpdatesSound(rows[..k], counts, u);
      var i :| 0 <= i < k && IsFluxRow(rows[..k][i]) && u == LayoutUpdate(rows[..k][i].id, BackfillFor(rows[..k][i], counts))
               && BackfillFor(rows[..k][i], counts) != rows[..k][i].blockLayout;
      assert rows[..k][i] == rows[i];
    } else {
      assert u == LayoutUpdate(rows[k].id, BackfillFor(rows[k], counts));
    }
  }

  /** Every Flux row whose layout the back-fill changes gets its update. */
  lemma {:induction false} BackfillUpdatesComplete(rows: seq<LayoutRow>, counts: map<int, nat>, i: nat)
    requires i < |rows| && IsFluxRow(rows[i]) && BackfillFor(rows[i], counts) != rows[i].blockLayout
    ensures LayoutUpdate(rows[i].id, BackfillFor(rows[i], counts)) in BackfillUpdates(rows, counts)
    decreases |rows|
  {
    var k := |rows| - 1;
    if i < k {
      assert rows[..k][i] == rows[i];
      BackfillUpdatesComplete(rows[..k], counts, i);
    }
  }

  /** The `lora` row fields `_persist_analysis_for_lora` writes, and the block rows it inserts. */
  datatype PersistResult = PersistResult(hasBlockWeights: bool, blockCount: nat, blockLayout: Option<string>,
                                         weightRows: seq<WeightRow>)

  /** The layout a fresh analysis of `n` blocks gets. */
  function PersistedLayout(baseModelCode: Option<string>, loraType: Option<string>, n: nat): Option<string>
  {
    if n == 0 then LayoutWithoutBlocks(baseModelCode) else AnalysedLayout(loraType, n)
  }

  function LayoutWithoutBlocks(baseModelCode: Option<string>): Option<string>
  {
    if OrEmpty(UpperOrNone(baseModelCode)) in {"FLX", "FLK"} then Some(FluxFallback16) else None
  }

  function AnalysedLayout(loraType: Option<string>, n: nat): Option<string>
  {
    var made := NormalizeBlockLayout(MakeFluxLayout(loraType, n));
    if made.None? then InferLayoutFromBlockCount(n) else made
  }

  /** `(code or "").upper() or None`, then `or ""`: the upper-cased code or the empty string. */
  lemma OrEmptyOfUpperOrNone(code: Option<string>)
    ensures OrEmpty(UpperOrNone(code)) == Upper(OrEmpty(code))
  {
    if !Truthy(code) {
      assert Upper("") == "";
    }
  }

  /**
   * A re-analysed LoRA with blocks always gets a valid layout that expects
   * exactly its block count.
   */
  lemma PersistedLayoutWithBlocks(baseModelCode: Option<string>, loraType: Option<string>, n: nat)
    requires n > 0
    ensures PersistedLayout(baseModelCode, loraType, n).Some?
    ensures NormalizeBlockLayout(PersistedLayout(baseModelCode, loraType, n)) == PersistedLayout(baseModelCode, loraType, n)
    ensures ExpectedBlockCountForLayout(PersistedLayout(baseModelCode, loraType, n)) == Some(n)
  {
    assert PersistedLayout(baseModelCode, loraType, n) == AnalysedLayout(loraType, n);
    var made := MakeFluxLayout(loraType, n);
    if made.Some? {
      MakeFluxLayoutRoundTrip(loraType, n);
      assert AnalysedLayout(loraType, n) == made;
    } else {
      InferLayoutRoundTrip(n);
      assert AnalysedLayout(loraType, n) == InferLayoutFromBlockCount(n);
    }
  }

  /** One without blocks gets the fallback if it is a Flux model, in any letter case, and no layout otherwise. */
  lemma PersistedLayoutWithoutBlocks(baseModelCode: Option<string>, loraType: Option<string>)
    ensures PersistedLayout(baseModelCode, loraType, 0)
            == if ShouldForceFluxFallbackLayout(baseModelCode, false) then Some(FluxFallback16) else None
  {
    OrEmptyOfUpperOrNone(baseModelCode);
  }

  /**
   * `_persist_analysis_for_lora` after the analysis: the row's new flag,
   * count and layout, and the block rows that replace the old ones (none
   * without blocks).
   */
  method PersistAnalysisForLora(baseModelCode: Option<string>, loraType: Option<string>,
                                blockWeights: seq<real>, rawStrengths: seq<real>)
    returns (r: PersistResult)
    ensures r.hasBlockWeights <==> blockWeights != []
    ensures r.blockCount == |blockWeights|
    ensures r.blockLayout == PersistedLayout(baseModelCode, loraType, |blockWeights|)
    ensures blockWeights == [] ==> r.weightRows == []
    ensures blockWeights != [] ==> r.weightRows == ZippedRows(blockWeights, rawStrengths)
  {
    var code := UpperOrNone(baseModelCode);
    OrEmptyOfUpperOrNone(baseModelCode);
    var hasBlocks := blockWeights != [];
    var layout: Option<string>;
    if !hasBlocks {
      layout := if OrEmpty(code) in {"FLX", "FLK"} then Some(FluxFallback16) else None;
    } else {
      layout := NormalizeBlockLayout(MakeFluxLayout(loraType, |blockWeights|));
      if layout.None? {
        layout := InferLayoutFromBlockCount(|blockWeights|);
      }
    }
    var rows: seq<WeightRow> := [];
    if hasBlocks {
      rows := ZipWeightRows(blockWeights, rawStrengths);
    }
    r := PersistResult(hasBlocks, |blockWeights|, layout, rows);
  }

  // ---------------------------------------------------------------
  // The combine endpoint
  // ---------------------------------------------------------------

  /** A non-empty id without leading or trailing whitespace. */
  predicate Trimmed(x: string)
  {
    x != "" && Strip(x) == x
  }

  /** A stripped id that is not blank is trimmed: stripping is idempotent. */
  lemma StripIsTrimmed(x: string)
    ensures Strip(x) != "" ==> Trimmed(Strip(x))
  {
    StripNoSpace(Strip(x));
  }

  /** `[sid.strip() for sid in stable_ids if sid and sid.strip()]` */
  function CleanStableIds(ids: seq<string>): (r: seq<string>)
    ensures |r| <= |ids|
    ensures forall i | 0 <= i < |r| :: Trimmed(r[i])
    decreases |ids|
  {
    if ids == [] then []
    else
      var k := |ids| - 1;
      var t := Strip(ids[k]);
      StripIsTrimmed(ids[k]);
      CleanStableIds(ids[..k]) + (if ids[k] != "" && t != "" then [t] else [])
  }

  lemma CleanStep(ids: seq<string>)
    requires ids != []
    ensures var k := |ids| - 1;
            CleanStableIds(ids) == CleanStableIds(ids[..k])
                                   + (if ids[k] != "" && Strip(ids[k]) != "" then [Strip(ids[k])] else [])
  {
  }

  /** Ids that are already trimmed and non-empty pass unchanged. */
  lemma {:induction false} CleanKeepsTrimmedIds(ids: seq<string>)
    requires forall i | 0 <= i < |ids| :: Trimmed(ids[i])
    ensures CleanStableIds(ids) == ids
    decreases |ids|
  {
    if ids != [] {
      var k := |ids| - 1;
      var pre := ids[..k];
      assert forall i | 0 <= i < k :: pre[i] == ids[i];
      CleanKeepsTrimmedIds(pre);
      CleanStep(ids);
      assert Trimmed(ids[k]);
      InitThenLast(ids);
    }
  }

  /** So cleaning twice is cleaning once. */
  lemma CleanIdempotent(ids: seq<string>)
    ensures CleanStableIds(CleanStableIds(ids)) == CleanStableIds(ids)
  {
    CleanKeepsTrimmedIds(CleanStableIds(ids));
  }

  /** Every cleaned id is the trim of some request id. */
  lemma {:induction false} CleanedIdsComeFromRequest(ids: seq<string>, x: string)
    requires x in CleanStableIds(ids)
    ensures exists j | 0 <= j < |ids| :: x == Strip(ids[j])
    decreases |ids|
  {
    var k := |ids| - 1;
    if x in CleanStableIds(ids[..k]) {
      CleanedIdsComeFromRequest(ids[..k], x);
      var j :| 0 <= j < k && x == Strip(ids[..k][j]);
      assert ids[..k][j] == ids[j];
    } else {
      assert x == Strip(ids[k]);
    }
  }

  /** Every request id whose trim is not blank survives, trimmed. */
  lemma {:induction false} RequestIdsSurviveCleaning(ids: seq<string>, j: nat)
    requires j < |ids| && Strip(ids[j]) != ""
    ensures Strip(ids[j]) in CleanStableIds(ids)
    decreases |ids|
  {
    var k := |ids| - 1;
    var pre := ids[..k];
    var x := Strip(ids[j]);
    CleanStep(ids);
    var last := if ids[k] != "" && Strip(ids[k]) != "" then [Strip(ids[k])] else [];
    assert CleanStableIds(ids) == CleanStableIds(pre) + last;
    if j < k {
      assert pre[j] == ids[j];
      RequestIdsSurviveCleaning(pre, j);
      assert x in CleanStableIds(pre);
    } else {
      assert |x| <= |ids[k]| && |x| > 0;
      assert ids[k] != "" by {
        assert |ids[k]| != |""|;
      }
      assert j == k;
      assert x == Strip(ids[k]);
      assert ids[k] != "" && Strip(ids[k]) != "";
      assert last == [x];
      assert x in last;
    }
  }

  predicate Distinct(s: seq<string>)
  {
    forall i, j | 0 <= i < j < |s| :: s[i] != s[j]
  }

  /** `list(dict.fromkeys(ids))`: every id once, at its first occurrence. */
  function Dedup(s: seq<string>): (r: seq<string>)
    ensures forall x :: x in r <==> x in s
    ensures Distinct(r)
    ensures |r| <= |s|
    decreases |s|
  {
    if s == [] then []
    else
      var k := |s| - 1;
      var p := Dedup(s[..k]);
      assert s == s[..k] + [s[k]];
      if s[k] in p then p else p + [s[k]]
  }

  /** The position of the first occurrence of `x`. */
  function FirstIndex(s: seq<string>, x: string): (i: nat)
    requires x in s
    ensures i < |s| && s[i] == x
    ensures forall j | 0 <= j < i :: s[j] != x
    decreases |s|
  {
    if s[0] == x then 0 else 1 + FirstIndex(s[1..], x)
  }

  lemma FirstIndexOfPrefix(s: seq<string>, k: nat, x: string)
    requires k <= |s| && x in s[..k]
    ensures x in s && FirstIndex(s, x) == FirstIndex(s[..k], x)
  {
    var i := FirstIndex(s[..k], x);
    assert s[i] == x;
  }

  /** The deduplicated ids appear in the order of their first occurrences. */
  lemma {:induction false} DedupKeepsFirstOccurrenceOrder(s: seq<string>)
    ensures forall i, j | 0 <= i < j < |Dedup(s)| :: FirstIndex(s, Dedup(s)[i]) < FirstIndex(s, Dedup(s)[j])
    decreases |s|
  {
    if s != [] {
      var k := |s| - 1;
      var p := Dedup(s[..k]);
      DedupKeepsFirstOccurrenceOrder(s[..k]);
      forall i, j | 0 <= i < j < |Dedup(s)| ensures FirstIndex(s, Dedup(s)[i]) < FirstIndex(s, Dedup(s)[j]) {
        var r := Dedup(s);
        assert r[i] in p;
        FirstIndexOfPrefix(s, k, r[i]);
        if j < |p| {
          assert r[i] == p[i] && r[j] == p[j];
          FirstIndexOfPrefix(s, k, r[j]);
        } else {
          assert r[j] == s[k] && s[k] !in s[..k];
          assert FirstIndex(s, r[j]) == k;
        }
      }
    }
  }

  /** A list without repeats is its own deduplication. */
  lemma {:induction false} DedupOfDistinct(s: seq<string>)
    requires Distinct(s)
    ensures Dedup(s) == s
    decreases |s|
  {
    if s != [] {
      var k := |s| - 1;
      DedupOfDistinct(s[..k]);
      assert s[k] !in s[..k];
      assert s == s[..k] + [s[k]];
    }
  }

  /** The `lora` row the combine endpoint reads for a stable id. */
  datatype StoredLora = StoredLora(baseModelCode: Option<string>, blockLayout: Option<string>, hasBlockWeights: bool)

  function NotFoundWarning(sid: string): string
  {
    "LoRA " + sid + " was not found and was excluded from combination."
  }

  function FlaggedWithoutRowsWarning(sid: string): string
  {
    "LoRA " + sid + " indicates block weights in metadata but has no scanned rows and was excluded from combination."
  }

  function NoRowsWarning(sid: string): string
  {
    "LoRA " + sid + " has no scanned block weights and was excluded from combination."
  }

  /** The weights of a stable id's `lora_block_weights` rows, in index order; none when it has no rows. */
  function BlockRowsOf(blockRows: map<string, seq<real>>, sid: string): seq<real>
  {
    if sid in blockRows then blockRows[sid] else []
  }

  /** An id is excluded when its row is missing or it has no block rows, whatever its flag says. */
  predicate IsExcluded(sid: string, rows: map<string, StoredLora>, blockRows: map<string, seq<real>>)
  {
    sid !in rows || BlockRowsOf(blockRows, sid) == []
  }

  function ExclusionWarning(sid: string, rows: map<string, StoredLora>, blockRows: map<string, seq<real>>): string
    requires IsExcluded(sid, rows, blockRows)
  {
    if sid !in rows then NotFoundWarning(sid)
    else if rows[sid].hasBlockWeights then FlaggedWithoutRowsWarning(sid)
    else NoRowsWarning(sid)
  }

  /** The compose input built for an included id: its stored code, its normalised layout and its weights. */
  function IncludedInput(sid: string, rows: map<string, StoredLora>, blockRows: map<string, seq<real>>): ComposeInput
    requires sid in rows
  {
    ComposeInput(sid, rows[sid].baseModelCode, NormalizeBlockLayout(rows[sid].blockLayout), BlockRowsOf(blockRows, sid))
  }

  function IncludedInputs(ids: seq<string>, rows: map<string, StoredLora>, blockRows: map<string, seq<real>>)
    : seq<ComposeInput>
    decreases |ids|
  {
    if ids == [] then []
    else
      var k := |ids| - 1;
      IncludedInputs(ids[..k], rows, blockRows)
      + (if IsExcluded(ids[k], rows, blockRows) then [] else [IncludedInput(ids[k], rows, blockRows)])
  }

  function ExcludedIds(ids: seq<string>, rows: map<string, StoredLora>, blockRows: map<string, seq<real>>)
    : seq<string>
    decreases |ids|
  {
    if ids == [] then []
    else
      var k := |ids| - 1;
      ExcludedIds(ids[..k], rows, blockRows) + (if IsExcluded(ids[k], rows, blockRows) then [ids[k]] else [])
  }

  function ExclusionWarnings(ids: seq<string>, rows: map<string, StoredLora>, blockRows: map<string, seq<real>>)
    : seq<string>
    decreases |ids|
  {
    if ids == [] then []
    else
      var k := |ids| - 1;
      ExclusionWarnings(ids[..k], rows, blockRows)
      + (if IsExcluded(ids[k], rows, blockRows) then [ExclusionWarning(ids[k], rows, blockRows)] else [])
  }

  function IdsOf(inputs: seq<ComposeInput>): (r: seq<string>)
    ensures |r| == |inputs|
  {
    seq(|inputs|, i requires 0 <= i < |inputs| => inputs[i].stableId)
  }

  /** The include/exclude loop of `api_lora_combine`. */
  method PartitionStableIds(ids: seq<string>, rows: map<string, StoredLora>, blockRows: map<string, seq<real>>)
    returns (included: seq<ComposeInput>, excluded: seq<string>, warnings: seq<string>)
    ensures included == IncludedInputs(ids, rows, blockRows)
    ensures excluded == ExcludedIds(ids, rows, blockRows)
    ensures warnings == ExclusionWarnings(ids, rows, blockRows)
  {
    included, excluded, warnings := [], [], [];
    var i := 0;
    while i < |ids|
      invariant 0 <= i <= |ids|
      invariant included == IncludedInputs(ids[..i], rows, blockRows)
      invariant excluded == ExcludedIds(ids[..i], rows, blockRows)
      invariant warnings == ExclusionWarnings(ids[..i], rows, blockRows)
    {
      PartitionPrefixStep(ids, rows, blockRows, i);
      var inc, exc, warn := PartitionOne(ids[i], rows, blockRows);
      included, excluded, warnings := included + inc, excluded + exc, warnings + warn;
      i := i + 1;
    }
    assert ids[..i] == ids;
  }

  /** The loop body for one id: a missing row or missing block rows exclude it with a warning, otherwise it is included. */
  method PartitionOne(sid: string, rows: map<string, StoredLora>, blockRows: map<string, seq<real>>)
    returns (inc: seq<ComposeInput>, exc: seq<string>, warn: seq<string>)
    ensures inc == if IsExcluded(sid, rows, blockRows) then [] else [IncludedInput(sid, rows, blockRows)]
    ensures exc == if IsExcluded(sid, rows, blockRows) then [sid] else []
    ensures warn == if IsExcluded(sid, rows, blockRows) then [ExclusionWarning(sid, rows, blockRows)] else []
  {
    if sid !in rows {
      return [], [sid], [NotFoundWarning(sid)];
    }
    inc, exc, warn := PartitionFound(sid, rows[sid], BlockRowsOf(blockRows, sid));
  }

  /** The loop body for an id whose row exists: excluded with a warning when it has no block rows. */
  method PartitionFound(sid: string, row: StoredLora, bw: seq<real>)
    returns (inc: seq<ComposeInput>, exc: seq<string>, warn: seq<string>)
    ensures inc == if bw == [] then [] else [ComposeInput(sid, row.baseModelCode, NormalizeBlockLayout(row.blockLayout), bw)]
    ensures exc == if bw == [] then [sid] else []
    ensures warn == if bw != [] then []
                    else if row.hasBlockWeights then [FlaggedWithoutRowsWarning(sid)]
                    else [NoRowsWarning(sid)]
  {
    if bw == [] {
      if row.hasBlockWeights {
        return [], [sid], [FlaggedWithoutRowsWarning(sid)];
      }
      return [], [sid], [NoRowsWarning(sid)];
    }
    inc, exc, warn := [ComposeInput(sid, row.baseModelCode, NormalizeBlockLayout(row.blockLayout), bw)], [], [];
  }

  lemma PartitionPrefixStep(ids: seq<string>, rows: map<string, StoredLora>, blockRows: map<string, seq<real>>, i: nat)
    requires i < |ids|
    ensures IncludedInputs(ids[..i + 1], rows, blockRows) == IncludedInputs(ids[..i], rows, blockRows)
              + (if IsExcluded(ids[i], rows, blockRows) then [] else [IncludedInput(ids[i], rows, blockRows)])
    ensures ExcludedIds(ids[..i + 1], rows, blockRows) == ExcludedIds(ids[..i], rows, blockRows)
              + (if IsExcluded(ids[i], rows, blockRows) then [ids[i]] else [])
    ensures ExclusionWarnings(ids[..i + 1], rows, blockRows) == ExclusionWarnings(ids[..i], rows, blockRows)
              + (if IsExcluded(ids[i], rows, blockRows) then [ExclusionWarning(ids[i], rows, blockRows)] else [])
  {
    var p := ids[..i + 1];
    assert p[..i] == ids[..i] && p[i] == ids[i];
  }

  /** Each id lands in exactly one of the two lists, with one warning per exclusion. */
  lemma {:induction false} PartitionSizes(ids: seq<string>, rows: map<string, StoredLora>, blockRows: map<string, seq<real>>)
    ensures |IncludedInputs(ids, rows, blockRows)| + |ExcludedIds(ids, rows, blockRows)| == |ids|
    ensures |ExclusionWarnings(ids, rows, blockRows)| == |ExcludedIds(ids, rows, blockRows)|
    decreases |ids|
  {
    if ids != [] {
      PartitionSizes(ids[..|ids| - 1], rows, blockRows);
    }
  }

  /** The excluded ids are the requested ids whose row or block rows are missing. */
  lemma {:induction false} ExcludedIdsExactly(ids: seq<string>, rows: map<string, StoredLora>,
                                              blockRows: map<string, seq<real>>, x: string)
    ensures x in ExcludedIds(ids, rows, blockRows) <==> x in ids && IsExcluded(x, rows, blockRows)
    decreases |ids|
  {
    if ids != [] {
      var k := |ids| - 1;
      ExcludedIdsExactly(ids[..k], rows, blockRows, x);
      assert ids == ids[..k] + [ids[k]];
    }
  }

  /** The included LoRAs are the other requested ids, each with its row, a non-empty vector and a normalised layout. */
  lemma {:induction false} IncludedIdsExactly(ids: seq<string>, rows: map<string, StoredLora>,
                                              blockRows: map<string, seq<real>>, x: string)
    ensures x in IdsOf(IncludedInputs(ids, rows, blockRows)) <==> x in ids && !IsExcluded(x, rows, blockRows)
    ensures forall l | l in IncludedInputs(ids, rows, blockRows) ::
              l.stableId in rows && l.blockWeights != [] && NormalizeBlockLayout(l.blockLayout) == l.blockLayout
    decreases |ids|
  {
    if ids != [] {
      var k := |ids| - 1;
      IncludedIdsExactly(ids[..k], rows, blockRows, x);
      assert ids == ids[..k] + [ids[k]];
      var pre := IncludedInputs(ids[..k], rows, blockRows);
      if !IsExcluded(ids[k], rows, blockRows) {
        assert IdsOf(IncludedInputs(ids, rows, blockRows)) == IdsOf(pre) + [ids[k]];
        NormalizeIdempotent(rows[ids[k]].blockLayout);
      } else {
        assert IdsOf(IncludedInputs(ids, rows, blockRows)) == IdsOf(pre);
      }
    }
  }

  /** The settings of a request entry; `model_dump(exclude_none=True)` drops only an unset A or B. */
  datatype RequestSettings = RequestSettings(strengthModel: real, strengthClip: real, affectClip: bool,
                                             a: Option<real>, b: Option<real>)

  const DefaultRequestSettings := RequestSettings(1.0, 0.0, true, None, None)

  function ToLoraSettings(s: RequestSettings): LoraSettings
  {
    LoraSettings(Some(s.strengthModel), Some(s.affectClip), Some(s.strengthClip), s.a, s.b)
  }

  function PerLoraConfig(perLora: map<string, RequestSettings>): map<string, LoraSettings>
  {
    map k | k in perLora :: ToLoraSettings(perLora[k])
  }

  /** An entry with the request defaults behaves exactly like an absent entry. */
  lemma DefaultSettingsAreNeutral(sid: string, perLora: map<string, RequestSettings>)
    requires sid in perLora && perLora[sid] == DefaultRequestSettings
    ensures OrDefault(SettingsFor(PerLoraConfig(perLora), sid).strengthModel, 1.0) == OrDefault(NoSettings.strengthModel, 1.0)
    ensures IsClipContributor(SettingsFor(PerLoraConfig(perLora), sid)) == IsClipContributor(NoSettings)
    ensures ParamOf(SettingsFor(PerLoraConfig(perLora), sid), ParamA) == ParamOf(NoSettings, ParamA)
    ensures ParamOf(SettingsFor(PerLoraConfig(perLora), sid), ParamB) == ParamOf(NoSettings, ParamB)
  {
  }

  const EmptyRequestDetail := "stable_ids must contain at least one stable_id."
  const NothingIncludedReason := "No LoRAs with scanned block weights were available to combine."

  /** The 400 answers of the combine endpoint. */
  datatype CombineFailure =
    | EmptyRequest
    | NothingIncluded(excludedIds: seq<string>, warnings: seq<string>)
    | Incompatible(validation: Validation, includedIds: seq<string>, excludedIds: seq<string>, warnings: seq<string>)
    | InvalidInput(message: string)

  datatype CombineResponse = CombineResponse(
    validatedBaseModel: Option<string>,
    validatedLayout: Option<string>,
    includedIds: seq<string>,
    excludedIds: seq<string>,
    warnings: seq<string>,
    combined: Combined)

  /**
   * `api_lora_combine`: `rows` is the `lora` rows found for the requested
   * ids, keyed by stable id, and `blockRows` the block weights stored for
   * each id. The request is rejected when no id is left after trimming,
   * when no id has block rows, when the included LoRAs are incompatible and
   * when their vectors differ in length; otherwise the answer is the
   * weighted average of the included LoRAs, with the exclusion warnings
   * ahead of the combine warnings.
   */
  method ApiLoraCombine(stableIds: seq<string>, perLora: map<string, RequestSettings>,
                        rows: map<string, StoredLora>, blockRows: map<string, seq<real>>, round: real -> real)
    returns (r: Result<CombineResponse, CombineFailure>)
    ensures r == Err(EmptyRequest) <==> CleanStableIds(stableIds) == []
    ensures CleanStableIds(stableIds) != [] ==>
      var ids := Dedup(CleanStableIds(stableIds));
      var inc := IncludedInputs(ids, rows, blockRows);
      var exc := ExcludedIds(ids, rows, blockRows);
      var warn := ExclusionWarnings(ids, rows, blockRows);
      var v := ValidateCompatibility(inc);
      && (inc == [] ==> r == Err(NothingIncluded(exc, warn)))
      && (inc != [] && !v.compatible ==> r == Err(Incompatible(v, IdsOf(inc), exc, warn)))
      && (inc != [] && v.compatible ==>
            match Combine(inc, PerLoraConfig(perLora), v.validatedLayout, round)
            case Err(e) => r == Err(InvalidInput(e))
            case Ok(o) => r == Ok(CombineResponse(v.validatedBaseModel, v.validatedLayout, IdsOf(inc), exc,
                                                  warn + o.warnings, o.combined)))
  {
    var cleaned := CleanStableIds(stableIds);
    if cleaned == [] {
      return Err(EmptyRequest);
    }
    var ids := Dedup(cleaned);
    var included, excluded, warnings := PartitionStableIds(ids, rows, blockRows);
    if included == [] {
      return Err(NothingIncluded(excluded, warnings));
    }
    var validation := ValidateCompatibility(included);
    if !validation.compatible {
      return Err(Incompatible(validation, IdsOf(included), excluded, warnings));
    }
    var result := CombineWeightsWeightedAverage(included, PerLoraConfig(perLora), validation.validatedLayout, round);
    match result
    case Err(e) =>
      r := Err(InvalidInput(e));
    case Ok(o) =>
      r := Ok(CombineResponse(validation.validatedBaseModel, validation.validatedLayout, IdsOf(included), excluded,
                              warnings + o.warnings, o.combined));
  }

  /**
   * In a successful answer the included ids are distinct, none of them is
   * also excluded, and together they are exactly the requested ids after
   * trimming.
   */
  lemma CombineIdsArePartition(stableIds: seq<string>, rows: map<string, StoredLora>,
                               blockRows: map<string, seq<real>>, x: string)
    ensures var ids := Dedup(CleanStableIds(stableIds));
            var inc := IdsOf(IncludedInputs(ids, rows, blockRows));
            var exc := ExcludedIds(ids, rows, blockRows);
            && !(x in inc && x in exc)
            && (x in CleanStableIds(stableIds) <==> x in inc || x in exc)
            && |inc| + |exc| == |ids|
  {
    var ids := Dedup(CleanStableIds(stableIds));
    PartitionSizes(ids, rows, blockRows);
    ExcludedIdsExactly(ids, rows, blockRows, x);
    IncludedIdsExactly(ids, rows, blockRows, x);
  }
}
