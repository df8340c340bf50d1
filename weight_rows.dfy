/**
 * WeightRows: the rows of the `lora_block_weights` table that the indexer
 * and the re-analysis endpoint write after the old rows of a LoRA are
 * deleted: one row per position of `zip(block_weights, raw_strengths)`.
 */
module WeightRows {

  datatype WeightRow = WeightRow(blockIndex: nat, weight: real, rawStrength: real)

  function MinLength(a: seq<real>, b: seq<real>): nat
  {
    if |a| <= |b| then |a| else |b|
  }

  /**
   * `enumerate(zip(block_weights, raw_strengths))`: row `i` carries index
   * `i` and the `i`-th entry of both lists; the longer list is cut to the
   * length of the shorter one.
   */
  function ZippedRows(blockWeights: seq<real>, rawStrengths: seq<real>): (rows: seq<WeightRow>)
    ensures |rows| <= |blockWeights| && |rows| <= |rawStrengths|
    ensures |rows| == |blockWeights| || |rows| == |rawStrengths|
    ensures forall i | 0 <= i < |rows| :: rows[i].blockIndex == i
  {
    seq(MinLength(blockWeights, rawStrengths),
        i requires 0 <= i < MinLength(blockWeights, rawStrengths) => WeightRow(i, blockWeights[i], rawStrengths[i]))
  }

  /** The insert loop over the zipped lists builds exactly those rows, in order. */
  method ZipWeightRows(blockWeights: seq<real>, rawStrengths: seq<real>) returns (rows: seq<WeightRow>)
    ensures |rows| == MinLength(blockWeights, rawStrengths)
    ensures forall i | 0 <= i < |rows| :: rows[i] == WeightRow(i, blockWeights[i], rawStrengths[i])
    ensures rows == ZippedRows(blockWeights, rawStrengths)
  {
    rows := [];
    var idx := 0;
    while idx < |blockWeights| && idx < |rawStrengths|
      invariant 0 <= idx <= |blockWeights| && idx <= |rawStrengths|
      invariant |rows| == idx
      invariant forall i | 0 <= i < idx :: rows[i] == WeightRow(i, blockWeights[i], rawStrengths[i])
    {
      rows := rows + [WeightRow(idx, blockWeights[idx], rawStrengths[idx])];
      idx := idx + 1;
    }
  }
}
