# LoRA weights builder — a Dafny model of the profile and block-weight logic

LoRA weights builder catalogues LoRA adapter files stored in a folder tree of
the form `<base model>/<category>/.../<file>.safetensors`. For each file it:

- works out the base model and category from the folder names;
- gives each file a stable id of the form `BASE-CAT-NNN`;
- measures how strongly the adapter acts on each transformer or UNet block;
- stores those per-block weights in a database, as a block layout such as
  `flux_transformer_38` or `unet_57` plus one weight per block.

An HTTP server serves catalogue rows and block weights. It can also combine
several LoRAs into one weighted-average profile, and a separate allocator
shares a strength budget among LoRAs by role and by block-energy overlap.

This project models that logic in Dafny, one module per source file:

| module | source file |
|---|---|
| `BlockLayouts` | `Database/backend/block_layouts.py`: the block-layout names, their parsing, normalisation and expected block counts, and building a layout from an analysis |
| `IdAssigner` | `Database/backend/lora_id_assigner.py`: stable ids and the per-group numbering loop |
| `Composer` | `Database/backend/lora_composer.py`: the compatibility check and the strength-weighted average |
| `WeightRows`, `ApiServer` | `Database/backend/lora_api_server.py`: layout decisions, response validation, the neutral fallback profile, user-profile length checks, layout back-fill and re-analysis, and the combine endpoint's pre-processing |
| `UnetBlocks` | `Database/backend/unet_block_extractor.py`: the 57-slot UNet index map and the extraction over given tensor norms |
| `EnergyOverlap` | `Database/backend/lora_energy_overlap.py`: role canonicalisation, energy vectors, the overlap matrix and the budgeted, damped allocation |
| `ClipContribution` | `Database/backend/clip_contribution.py`: counting CLIP keys |
| `Indexer` | `Database/backend/lora_indexer.py`: folder classification with the WAN mode-folder shift, per-file classification, and the upsert and block-weight replacement on a table held by the `LoraTable` class |
| `CatalogSkeleton` | `Database/backend/lora_catalog_skeleton.py`: folder classification without the shift, and the skeleton record |
| `DeltaInspector` | `Database/backend/delta_inspector_engine.py`: tensor bucketing, block accumulation and normalisation, the case dispatch and the base-code dispatch |
| `ProfileBuilder` | `Database/backend/profile_builder.py`: bucket detection and block statistics |
| `ProfilesIndex` | `Database/backend/profiles_index.py`: profile ids and the in-memory cache held by the `ProfileStore` class |
| `Text`, `Numeric` | helpers modelling Python's string and number built-ins. They cover case mapping, `strip`, `split` and `join`, `in`, `startswith`, `endswith`, `int(...)`, `f"{n:03d}"`, `sum` and `max` |

Weights, strengths and norms are Dafny `real`s.

Database reads are inputs to the model: rows are sequences of records. Most
database writes are returned values, such as the list of id updates or the
layout back-fill. The indexer's table and the profile cache are classes whose
methods change their fields.

Tensor norms computed with torch are given as non-negative reals; reading the
safetensors files is not modelled.

Rounding to a fixed number of places is an abstract `round: real -> real`
parameter where its result is returned (in the composer and the delta
inspector). Properties that depend on rounding assume only that it keeps
[0, 1] in [0, 1].

Where the code and its description disagree, the model follows the code:

- The composer has no cap-based rescaling. The combined block weight is the
  plain strength-weighted average.
- Stable-id numbering in a group starts at 001.
- Line 72 of `Database/backend/block_layouts.py` is not indented under the `if`
  on line 71: it sits at the `if`'s own level, so the `if` has no body and
  Python raises IndentationError ("expected an indented block"). The model follows the evident intent, as the comments
  and callers read it: a type naming both double and single blocks gives
  `flux_double_N`.
- `Database/backend/lora_api_server.py` imports `fallback_block_count_for_layout`
  from `block_layouts`, which does not define it. That function is not part of
  this model, so `ApiServer.ApiLoraBlocks` takes it as a function parameter.

## Model

| member | source | states |
|---|---|---|
| BlockLayouts.DigitTail | Database/backend/block_layouts.py:10 | the `(\d+)$` tail: a non-empty digit run that is the whole rest, or the rest minus one final newline |
| BlockLayouts.MatchedPrefix | Database/backend/block_layouts.py:10 | the matched family is one of `flux_transformer_`, `flux_double_`, `flux_te_` and the layout starts with it |
| BlockLayouts.ParseBlockLayout | Database/backend/block_layouts.py:19-44 | a parsed layout keeps the input text exactly; None and "" never parse; `flux_fallback_16` expects 16 and `unet_57` expects 57 |
| BlockLayouts.ParsedForms | Database/backend/block_layouts.py:10-44 | nothing else parses: a recognised layout is one of the two fixed names or a family prefix plus digits (optionally one final newline), and its expected count is the value of those digits |
| BlockLayouts.PrefixedCountParses | Database/backend/block_layouts.py:39-44 | a family prefix followed by the decimal form of n parses, with expected count n |
| BlockLayouts.PatternQuirks | Database/backend/block_layouts.py:10-44 | leading zeros are accepted (`flux_te_007` expects 7), and so is one trailing newline, because `$` matches before it |
| BlockLayouts.ParsedIsLowerCase | Database/backend/block_layouts.py:7-44 | every recognised layout is lower case |
| BlockLayouts.NormalizeBlockLayout | Database/backend/block_layouts.py:47-51 | the result is None or the input unchanged, and never "" |
| BlockLayouts.NormalizeIdempotent | Database/backend/block_layouts.py:47-51 | normalising twice is normalising once |
| BlockLayouts.ExpectedBlockCountForLayout | Database/backend/block_layouts.py:54-58 | a count exists exactly when the layout normalises to a layout |
| BlockLayouts.FluxLayoutPrefix | Database/backend/block_layouts.py:69-77 | the first matching rule picks one of the three family prefixes |
| BlockLayouts.FluxLayoutRule | Database/backend/block_layouts.py:68-78 | a layout is built exactly when some rule matches, and it is the chosen prefix followed by the count |
| BlockLayouts.MakeFluxLayout | Database/backend/block_layouts.py:61-78 | a layout only for a positive count, and always one of `flux_transformer_N`, `flux_double_N`, `flux_te_N` for that count |
| BlockLayouts.MakeFluxLayoutRoundTrip | Database/backend/block_layouts.py:47-78 | every built layout normalises to itself and expects exactly the count it was built from |
| BlockLayouts.MakeFluxLayoutOfTransformerLabel | Database/backend/block_layouts.py:68-70 | the analysis type "Flux (single_transformer_blocks)" gives `flux_transformer_N` |
| BlockLayouts.MakeFluxLayoutOfUnet57Label | Database/backend/block_layouts.py:68-72 | the type "Flux (UNet double+single blocks)" gives `flux_double_N` |
| BlockLayouts.MakeFluxLayoutOfDoubleLabel | Database/backend/block_layouts.py:68-74 | the type "Flux (UNet double_blocks)" gives `flux_double_N` |
| BlockLayouts.MakeFluxLayoutOfTextEncoderLabel | Database/backend/block_layouts.py:68-76 | the type "Flux (text-encoder only)" misses the earlier rules and gives `flux_te_N` |
| BlockLayouts.MakeFluxLayoutOfNoType | Database/backend/block_layouts.py:65-78 | a missing type matches no rule, whatever the count |
| BlockLayouts.InferLayoutFromBlockCount | Database/backend/block_layouts.py:81-89 | a layout is inferred exactly for positive counts: `unet_57` for 57 and `flux_transformer_N` for every other positive N |
| BlockLayouts.InferLayoutRoundTrip | Database/backend/block_layouts.py:81-89 | an inferred layout normalises to itself and expects exactly the count it came from |
| IdAssigner.GenerateStableId | Database/backend/lora_id_assigner.py:26-27 | the id starts with `base-cat-` and carries at least three more characters |
| IdAssigner.GenerateStableIdInjective | Database/backend/lora_id_assigner.py:26-27 | within one prefix, different numbers give different ids (the zero padding loses nothing) |
| IdAssigner.ExtractNumericSuffix | Database/backend/lora_id_assigner.py:30-50 | a number comes back only from a truthy id whose stripped, upper-cased text matches `AAA-AAA-ddd` with the expected prefix, and it is at most 999 |
| IdAssigner.ExtractGeneratedSuffix | Database/backend/lora_id_assigner.py:26-50 | for 3-character upper-case alphanumeric codes and 0 <= i <= 999, the generated id gives back i under the upper-cased prefix |
| IdAssigner.WideSuffixNotRecognised | Database/backend/lora_id_assigner.py:26-50 | a generated id numbered 1000 or more is no longer recognised, so such numbers are never counted as used |
| IdAssigner.NextFree | Database/backend/lora_id_assigner.py:106-107 | the `while next_candidate in used_numbers` loop ends at the least unused number at or after the candidate |
| IdAssigner.NumberingSkipsExisting | Database/backend/lora_id_assigner.py:100-103 | a row that already has a stable id gets no number, and every other row gets one |
| IdAssigner.NumberingFresh | Database/backend/lora_id_assigner.py:99-121 | every assigned number is at least the starting candidate (1) and is not among the used numbers |
| IdAssigner.NumberingIncreasing | Database/backend/lora_id_assigner.py:99-121 | assigned numbers strictly increase in row order, so no two new ids in a group coincide |
| IdAssigner.UsedNumbers | Database/backend/lora_id_assigner.py:88-94 | every used number is at most 999 |
| IdAssigner.UsedNumbersExactly | Database/backend/lora_id_assigner.py:88-94 | a number is used exactly when some row of the group carries an id that parses to it |
| IdAssigner.CollectUsedNumbers | Database/backend/lora_id_assigner.py:88-94 | the collection loop yields the used numbers of the group |
| IdAssigner.SkipUsed | Database/backend/lora_id_assigner.py:105-107 | the skip loop stops at the next free number |
| IdAssigner.CountExisting | Database/backend/lora_id_assigner.py:100-103 | the number of skipped rows is at most the group size |
| IdAssigner.AssignGroup | Database/backend/lora_id_assigner.py:85-129 | one group's loop issues the specified updates, one per row without an id, and assigned + skipped equals the group size |
| IdAssigner.GroupKeys | Database/backend/lora_id_assigner.py:74-78 | the group keys are distinct |
| IdAssigner.GroupItems | Database/backend/lora_id_assigner.py:63-78 | a group holds only participating rows (both codes set) with that group's key |
| IdAssigner.AbsentKeyHasNoItems | Database/backend/lora_id_assigner.py:74-78 | a key that never occurs has an empty group |
| IdAssigner.RowInItsGroup | Database/backend/lora_id_assigner.py:63-78 | every participating row lands in the group of its own key |
| IdAssigner.GroupsPartitionRows | Database/backend/lora_id_assigner.py:63-78 | the groups together hold exactly the participating rows |
| IdAssigner.GroupRows | Database/backend/lora_id_assigner.py:74-78 | the `setdefault().append` loop builds the keys in first-seen order and each key's rows in row order |
| IdAssigner.AssignIds | Database/backend/lora_id_assigner.py:53-136 | the whole pass issues the updates of every group in turn, and assigned + skipped equals the number of participating rows |
| Composer.LayoutSupportsAbOnParsed | Database/backend/lora_composer.py:27-39 | among recognised layouts, exactly `unet_57` and the `flux_double_N` layouts carry A/B; transformer, te and fallback layouts do not |
| Composer.NoneIfEmpty | Database/backend/lora_composer.py:63-64 | `value or None`: a value exactly for a non-empty string, and then that string |
| Composer.ValidateCompatibility | Database/backend/lora_composer.py:42-74 | compatible exactly when no reason is given; an incompatible result validates nothing; an empty input gives the single "No LoRAs" reason |
| Composer.SingleValueIffAllEqual | Database/backend/lora_composer.py:53-58 | a set comprehension has one element exactly when every value equals the first |
| Composer.CompatibleIffAllAgree | Database/backend/lora_composer.py:53-67 | compatible exactly when every upper-cased base code and every lower-cased layout equals the first one's, and then the validated values are those shared values (None when empty) |
| Composer.LayoutMismatchRejected | Database/backend/lora_composer.py:54-59 | one differing layout makes the set incompatible with the layout-mismatch reason |
| Composer.BaseMismatchRejected | Database/backend/lora_composer.py:53-57 | one differing base code makes the set incompatible with the base-mismatch reason |
| Composer.ModelStrengths | Database/backend/lora_composer.py:102-105 | one strength per included LoRA |
| Composer.CombinedModel | Database/backend/lora_composer.py:106-118 | the combined model has exactly the common block count |
| Composer.ClipStrengths | Database/backend/lora_composer.py:120-126 | the kept CLIP strengths are all non-zero |
| Composer.CombinedParam | Database/backend/lora_composer.py:142-156 | A (or B) has a value exactly when the validated layout supports A/B |
| Composer.RoundAll | Database/backend/lora_composer.py:18-19 | rounding keeps the vector's length |
| Composer.Combine | Database/backend/lora_composer.py:77-170 | the ValueError exactly for unequal lengths; otherwise strength_model 1.0, A/B present exactly for A/B layouts, one combined weight per block, and the empty input gives the "No LoRAs available to combine." payload |
| Composer.CombineWeightsWeightedAverage | Database/backend/lora_composer.py:77-170 | the loops compute the combine above |
| Composer.WeightedAverageLoop | Database/backend/lora_composer.py:108-118 | the per-block loop yields Σ sᵢ·wᵢ[j] / Σ sᵢ for every block, or zeros when Σ sᵢ = 0 |
| Composer.CollectClipStrengths | Database/backend/lora_composer.py:120-126 | the contributor loop keeps exactly the contributors' `strength_clip`, in order |
| Composer.WeightedSumBounds | Database/backend/lora_composer.py:113-117 | with non-negative strengths, the weighted sum of a block lies between lo·Σs and hi·Σs |
| Composer.CombinedModelBetween | Database/backend/lora_composer.py:111-118 | with non-negative strengths not summing to 0, each combined block lies between the smallest and largest input weight of that block |
| Composer.WeightedSumOfEqual | Database/backend/lora_composer.py:113-117 | equal entries w give the weighted sum w·Σs |
| Composer.CombineCopies | Database/backend/lora_composer.py:111-118 | combining copies of one vector gives that vector back, whatever the non-cancelling strengths |
| Composer.CombinedEntry | Database/backend/lora_composer.py:111-118 | entry j of the combined model is Σ sᵢ·wᵢ[j] / Σ sᵢ |
| Composer.ZeroStrengthsGiveZeros | Database/backend/lora_composer.py:108-110 | strengths summing to 0 give (rounded) zeros and the zero-strength warning first |
| Composer.NoClipContributors | Database/backend/lora_composer.py:120-140 | with no CLIP contributor, `strength_clip` is None and the no-CLIP warning is given |
| Composer.NoContributorsNoStrengths | Database/backend/lora_composer.py:120-126 | no contributor keeps no CLIP strength |
| Composer.CombineExample | Database/backend/tests/test_lora_composer.py:22-40 | strengths 1 and 3 over [0.2, 0.4, 0.6] and [0.6, 0.8, 1.0] give [0.5, 0.7, 0.9] |
| WeightRows.ZippedRows | Database/backend/lora_api_server.py:458-467 | one row per position of `zip(block_weights, raw_strengths)`: as many rows as the shorter list, numbered from 0 |
| WeightRows.ZipWeightRows | Database/backend/lora_api_server.py:458-467 | the insert loop writes row i as (i, block_weights[i], raw_strengths[i]) for every i below the shorter length |
| ApiServer.UpperOrNone | Database/backend/lora_api_server.py:188 | `(code or "").upper() or None` is a value exactly for a non-empty code, and that value is upper case |
| ApiServer.ForceIgnoresCodeCase | Database/backend/lora_api_server.py:232-238 | upper-casing the code before the fallback decision changes nothing |
| ApiServer.ForceOnlyForFlux | Database/backend/lora_api_server.py:169-177 | the Flux fallback is forced exactly when there are no blocks and the code is `FLX` or `FLK` in any letter case |
| ApiServer.ValidateBlockLayoutForSearchRow | Database/backend/lora_api_server.py:180-205 | the layout is the fallback when forced and the normalised stored layout otherwise, always a recognised layout or None; one warning exactly when a stored layout is set but unrecognised, naming "fallback" or "null" |
| ApiServer.FluxUnet57IsNotALayout | Database/backend/lora_api_server.py:398-400 | `flux_unet_57` never comes out of normalisation, so that alternative of the candidate test is never taken |
| ApiServer.Unet57CandidateRule | Database/backend/lora_api_server.py:397-402 | a row is a re-analysis candidate exactly when its layout normalises to `unet_57` or its lower-cased type contains both "unet" and "57" |
| ApiServer.InsertByIndex | Database/backend/lora_api_server.py:264 | inserting into a payload sorted by index keeps it sorted and adds exactly the one block |
| ApiServer.SortByIndex | Database/backend/lora_api_server.py:264 | `sorted(blocks, key=block_index)` is sorted by index and a permutation of the payload |
| ApiServer.InsertKeepsEqualOrder | Database/backend/lora_api_server.py:264 | inserting a block puts it in front of every block with the same index and keeps the order of those blocks |
| ApiServer.SortByIndexStable | Database/backend/lora_api_server.py:264 | the sort is stable: for every index, the blocks carrying it appear in the order of the payload, as Python's `sorted` keeps them |
| ApiServer.SortSortedIsIdentity | Database/backend/lora_api_server.py:264 | sorting an already sorted payload returns it unchanged |
| ApiServer.MinBlockIndex | Database/backend/lora_api_server.py:274 | `min(indices)` is no larger than any index and is one of them |
| ApiServer.ContiguousSorted | Database/backend/lora_api_server.py:272-276 | for a sorted payload, matching `range(min, min + len)` means each index is one more than the one before |
| ApiServer.OutOfRangeOrderFree | Database/backend/lora_api_server.py:281-289 | whether some weight lies outside [0,1] does not depend on the payload's order |
| ApiServer.ScanWeightRange | Database/backend/lora_api_server.py:281-292 | the weight loop reports out of range exactly when some present weight is below 0 or above 1 |
| ApiServer.ResponseLayout | Database/backend/lora_api_server.py:233-250 | a non-fallback, non-empty payload always leaves with a layout; the layout differs from the stated one only when it was inferred |
| ApiServer.ValidateBlocksResponse | Database/backend/lora_api_server.py:208-296 | the returned layout, the payload sorted by index, and the warnings in the order the function appends them |
| ApiServer.ResolveResponseLayout | Database/backend/lora_api_server.py:230-258 | the layout steps give the response layout and the layout warnings |
| ApiServer.ChooseLayout | Database/backend/lora_api_server.py:232-250 | normalise, warn about an unrecognised stored layout, force the fallback, infer from the count |
| ApiServer.CheckLayoutCount | Database/backend/lora_api_server.py:252-258 | the count check gives the count warning of the chosen layout |
| ApiServer.CheckPayloadShape | Database/backend/lora_api_server.py:261-294 | the shape steps sort the payload and give the contiguity and weight-range warnings |
| ApiServer.InferredLayoutFitsCount | Database/backend/lora_api_server.py:243-258 | an inferred layout expects exactly the payload's count and so draws no count warning |
| ApiServer.CountWarningRule | Database/backend/lora_api_server.py:252-258 | at most one count warning, present exactly when a non-empty payload has a known layout expecting another count |
| ApiServer.ResponseWarningsBound | Database/backend/lora_api_server.py:230-292 | at most four warnings; the weight-range warning is there exactly when some weight is out of range |
| ApiServer.LayoutWarningsFacts | Database/backend/lora_api_server.py:230-258 | at most two layout warnings, neither of them the weight-range warning |
| ApiServer.ShapeWarningsFacts | Database/backend/lora_api_server.py:261-292 | at most two shape warnings; the weight-range one exactly when a weight is out of range |
| ApiServer.FallbackBlocks | Database/backend/lora_api_server.py:923-930 | the neutral profile has `count` blocks, block i having index i and weight 1.0; no count means no blocks |
| ApiServer.FallbackBlocksWellFormed | Database/backend/lora_api_server.py:923-930 | the neutral profile is sorted, left unchanged by sorting, contiguous and within [0,1] |
| ApiServer.FallbackWarnings | Database/backend/lora_api_server.py:909-940 | validating the neutral profile keeps the stated layout and can only draw the count warning |
| ApiServer.ApiLoraBlocks | Database/backend/lora_api_server.py:879-993 | without stored weights: the neutral profile of the stated layout's fallback count, its reason, and at most the count warning; with them: the stored rows sorted by index, the validated layout and warnings, and `has_block_weights` exactly when rows exist |
| ApiServer.CheckProfileLength | Database/backend/lora_api_server.py:1090-1096 | a list is rejected exactly when the layout's expected count is known and differs from its length; an accepted list passes unchanged |
| ApiServer.CreateProfile | Database/backend/lora_api_server.py:1065-1116 | a request is accepted exactly when the stripped name is non-empty, the weights are a numeric list and the length check passes; the created profile has that name and list; otherwise the 400 of the first failing check, in source order: name, not a list, non-numeric, length |
| ApiServer.UpdateProfile | Database/backend/lora_api_server.py:1122-1188 | an update is accepted exactly when a given name is non-blank and given weights are a numeric list passing the length check; absent fields keep the stored values; otherwise the 400 of the first failing check, in source order |
| ApiServer.BackfillLayoutRule | Database/backend/lora_api_server.py:367-385 | the back-fill layout is always recognised or None: the fallback without blocks, the valid stored layout if any, else (with block rows) a layout expecting exactly the row count |
| ApiServer.BackfillFromCount | Database/backend/lora_api_server.py:380-385 | the layout built from the type and a positive count is recognised and expects that count |
| ApiServer.BackfillIdempotent | Database/backend/lora_api_server.py:354-394 | back-filling the back-filled layout changes nothing, so a second start-up writes no update |
| ApiServer.BackfillFluxLayouts | Database/backend/lora_api_server.py:354-394 | the loop writes the back-fill updates, in row order, and counts them |
| ApiServer.BackfillUpdatesSound | Database/backend/lora_api_server.py:357-389 | every update is for a Flux row and replaces its layout by a different back-fill layout |
| ApiServer.BackfillUpdatesComplete | Database/backend/lora_api_server.py:367-389 | every Flux row whose back-fill layout differs from its stored one gets its update |
| ApiServer.PersistedLayoutWithBlocks | Database/backend/lora_api_server.py:421-424 | a re-analysed LoRA with blocks gets a recognised layout expecting exactly its block count |
| ApiServer.PersistedLayoutWithoutBlocks | Database/backend/lora_api_server.py:409-420 | one without blocks gets the fallback exactly when the Flux fallback is forced for its code, else no layout |
| ApiServer.PersistAnalysisForLora | Database/backend/lora_api_server.py:405-478 | the new flag is set exactly when there are weights; the count, the layout and the replacement block rows (none without weights) |
| ApiServer.CleanStableIds | Database/backend/lora_api_server.py:609 | the cleaned ids are no more than the request's and each is stripped |
| ApiServer.CleanKeepsTrimmedIds | Database/backend/lora_api_server.py:609 | a request of already stripped, non-empty ids is kept as it is |
| ApiServer.CleanIdempotent | Database/backend/lora_api_server.py:609 | cleaning twice is cleaning once |
| ApiServer.CleanedIdsComeFromRequest | Database/backend/lora_api_server.py:609 | every cleaned id is the stripped form of a requested id |
| ApiServer.RequestIdsSurviveCleaning | Database/backend/lora_api_server.py:609 | every requested id that is not blank after stripping survives, stripped |
| ApiServer.Dedup | Database/backend/lora_api_server.py:613 | `dict.fromkeys` keeps exactly the same ids, each once |
| ApiServer.DedupKeepsFirstOccurrenceOrder | Database/backend/lora_api_server.py:613 | the kept ids are in the order of their first occurrences |
| ApiServer.DedupOfDistinct | Database/backend/lora_api_server.py:613 | a list without repeats is kept as it is |
| ApiServer.PartitionStableIds | Database/backend/lora_api_server.py:640-679 | the include/exclude loop yields the included inputs, the excluded ids and their warnings |
| ApiServer.PartitionOne | Database/backend/lora_api_server.py:640-679 | one id is either included (as its input) or excluded with its warning |
| ApiServer.PartitionFound | Database/backend/lora_api_server.py:646-679 | a found id with block rows is included with its normalised layout; without rows it is excluded, with the warning chosen by the `has_block_weights` flag |
| ApiServer.PartitionSizes | Database/backend/lora_api_server.py:640-679 | every id is either included or excluded, and each exclusion has one warning |
| ApiServer.ExcludedIdsExactly | Database/backend/lora_api_server.py:640-670 | an id is excluded exactly when it was requested and is missing or has no block rows |
| ApiServer.IncludedIdsExactly | Database/backend/lora_api_server.py:640-679 | an id is included exactly when it was requested and is found with block rows; included inputs have weights and a recognised layout or none |
| ApiServer.DefaultSettingsAreNeutral | Database/backend/lora_api_server.py:513-518 | an entry with the request defaults combines exactly like an absent entry |
| ApiServer.ApiLoraCombine | Database/backend/lora_api_server.py:607-734 | the 400 answers (empty request, nothing included, incompatible, unequal lengths) exactly in their cases; otherwise the validated values, the included and excluded ids, the exclusion warnings followed by the combine warnings, and the combined weights |
| ApiServer.CombineIdsArePartition | Database/backend/lora_api_server.py:609-679 | no id is both included and excluded; together they are exactly the cleaned requested ids, each once |
| UnetBlocks.DownOffset | Database/backend/unet_block_extractor.py:53-60 | the down-block slot offset, when defined, is below 5 |
| UnetBlocks.MidOffset | Database/backend/unet_block_extractor.py:67-73 | the mid-block index, when defined, is 24, 25 or 26 |
| UnetBlocks.UpOffset | Database/backend/unet_block_extractor.py:82-91 | the up-block slot offset, when defined, is below 7 |
| UnetBlocks.DownIndex | Database/backend/unet_block_extractor.py:50-63 | a mapped down-block key lands in 4..23; a block number outside 0..3 raises the unsupported-block error |
| UnetBlocks.MidIndex | Database/backend/unet_block_extractor.py:66-76 | a mapped mid-block key lands in 24..26 |
| UnetBlocks.UpIndex | Database/backend/unet_block_extractor.py:79-94 | a mapped up-block key lands in 27..54; a block number outside 0..3 raises the unsupported-block error |
| UnetBlocks.SlotIndex | Database/backend/unet_block_extractor.py:11-94 | every mapped slot lands below 57 |
| UnetBlocks.SlotIndexCovers | Database/backend/unet_block_extractor.py:11-19 | every one of the 57 logical blocks is the index of some slot |
| UnetBlocks.DownCovers | Database/backend/unet_block_extractor.py:50-63 | every index 4..23 is reached by a down-block slot |
| UnetBlocks.UpCovers | Database/backend/unet_block_extractor.py:79-94 | every index 27..54 is reached by an up-block slot |
| UnetBlocks.SlotIndexInjective | Database/backend/unet_block_extractor.py:11-94 | two slots that map to the same index are the same slot (up to letter case of the family) |
| UnetBlocks.DownOffsetInjective | Database/backend/unet_block_extractor.py:54-60 | distinct (family, inner) pairs have distinct down offsets |
| UnetBlocks.MidOffsetInjective | Database/backend/unet_block_extractor.py:68-72 | distinct (family, inner) pairs have distinct mid indices |
| UnetBlocks.UpOffsetInjective | Database/backend/unet_block_extractor.py:83-91 | distinct (family, inner) pairs have distinct up offsets |
| UnetBlocks.DigitRunEnd | Database/backend/unet_block_extractor.py:33-41 | `(\d+)` takes the longest run of digits from its start |
| UnetBlocks.FamilyAt | Database/backend/unet_block_extractor.py:33-41 | a matched family is one of the alternatives, present at that position |
| UnetBlocks.RegionAt | Database/backend/unet_block_extractor.py:32-43 | a region match starts at a `unet` anchor (start or separator, optional `lora_`) |
| UnetBlocks.RegionSearch | Database/backend/unet_block_extractor.py:102-110 | `search` succeeds only where some position carries the anchor |
| UnetBlocks.FirstStem | Database/backend/unet_block_extractor.py:23-30 | the stem found is the first in pattern order whose pattern occurs in the key |
| UnetBlocks.MatchBlockIndex | Database/backend/unet_block_extractor.py:97-114 | a found block is below 57; a key no pattern matches gives None |
| UnetBlocks.MatchedKeysAreCandidates | Database/backend/unet_block_extractor.py:117-119 | every key some pattern matches contains `unet`, so it is a candidate key |
| UnetBlocks.Classify | Database/backend/unet_block_extractor.py:127-134 | a key is skipped exactly when it is not a candidate; a candidate no pattern maps is the unmapped-key error |
| UnetBlocks.ScanAll | Database/backend/unet_block_extractor.py:123-137 | while the loop runs there are 57 non-negative buckets |
| UnetBlocks.ExtractUnet57BlockStrengths | Database/backend/unet_block_extractor.py:122-148 | the method computes the extraction: the raw buckets and their quotients by the maximum, or the error raised |
| UnetBlocks.ScanKeys | Database/backend/unet_block_extractor.py:123-137 | the key loop computes the bucket state after all keys, or the error that stopped it |
| UnetBlocks.ScanKey | Database/backend/unet_block_extractor.py:128-137 | one key: skipped, stopped with its error, or its norm added to its bucket and the seen flag set |
| UnetBlocks.Advance | Database/backend/unet_block_extractor.py:127-137 | the state after i+1 keys is one step from the state after i keys |
| UnetBlocks.StoppedPersists | Database/backend/unet_block_extractor.py:133-134 | once an error is raised no later key changes the outcome |
| UnetBlocks.ExtractionNormalized | Database/backend/unet_block_extractor.py:142-148 | a success gives 57 raw and 57 normalised values, all of the latter within [0,1] and one of them exactly 1 |
| UnetBlocks.ScanConservesNorm | Database/backend/unet_block_extractor.py:127-137 | the buckets add up to the total norm of the candidate keys seen |
| UnetBlocks.StepConservesNorm | Database/backend/unet_block_extractor.py:128-137 | one step adds the key's norm to the total exactly when it is a candidate |
| UnetBlocks.ExtractionConservesNorm | Database/backend/unet_block_extractor.py:122-148 | the raw strengths of a success add up to the total candidate norm: no norm is lost or counted twice |
| UnetBlocks.UnmappedCandidateFails | Database/backend/unet_block_extractor.py:132-134 | a candidate key no pattern maps makes the whole extraction fail |
| UnetBlocks.KeysBeforeStop | Database/backend/unet_block_extractor.py:131-134 | the loop stops only with a mapping error or an unmapped key |
| UnetBlocks.NoCandidatesMeansNoUnetKeys | Database/backend/unet_block_extractor.py:139-140 | a file without candidate keys leaves the buckets empty and raises "No UNet-style keys" |
| EnergyOverlap.RoleNamed | Database/backend/lora_energy_overlap.py:6-23 | a name resolves to the role whose name it is |
| EnergyOverlap.HierarchyIsComplete | Database/backend/lora_energy_overlap.py:6-23 | the hierarchy lists every role once; every budget is positive and the budgets add up to 1 |
| EnergyOverlap.RoleNameRoundTrip | Database/backend/lora_energy_overlap.py:6-23 | a role's name resolves back to that role |
| EnergyOverlap.CanonicalizeRole | Database/backend/lora_energy_overlap.py:55-66 | the canonical role is always one of the budgeted roles |
| EnergyOverlap.AliasesAreNotRoles | Database/backend/lora_energy_overlap.py:29-32 | `pose` and `action` are not budgeted roles and both map to `utility` |
| EnergyOverlap.BlankRoleIsOther | Database/backend/lora_energy_overlap.py:62-64 | a role that is blank after stripping becomes `other` |
| EnergyOverlap.AliasRoleIsUtility | Database/backend/lora_energy_overlap.py:65-66 | an alias, in any case and with surrounding spaces, becomes `utility` |
| EnergyOverlap.BudgetedRoleIsKept | Database/backend/lora_energy_overlap.py:62-66 | a budgeted role, in any case and with surrounding spaces, is kept in its stripped lower-case form |
| EnergyOverlap.UnknownRoleIsOther | Database/backend/lora_energy_overlap.py:66 | a role that is neither budgeted nor an alias becomes `other` |
| EnergyOverlap.CanonicalForm | Database/backend/lora_energy_overlap.py:62 | a lower-case role without surrounding spaces is its own stripped lower-case form |
| EnergyOverlap.BudgetRoleIsCanonical | Database/backend/lora_energy_overlap.py:16-23 | each budgeted role name is already in that form |
| EnergyOverlap.CanonicalizeRoleIdempotent | Database/backend/lora_energy_overlap.py:55-66 | canonicalising twice is canonicalising once |
| EnergyOverlap.EnergyBlocks | Database/backend/lora_energy_overlap.py:70-73 | one energy per block, |wᵢ|·|s|, never negative |
| EnergyOverlap.NormalizeEnergy | Database/backend/lora_energy_overlap.py:74-78 | the normalised vector lies in [0,1]; it is all zeros for zero energy and otherwise sums to 1 with each entry eᵢ/Σe |
| EnergyOverlap.ComputeLoraEnergyMetrics | Database/backend/lora_energy_overlap.py:69-87 | the metrics keep the id and factor, canonicalise the role, and carry the energies, their non-negative total and the normalised vector: all zeros for zero energy, otherwise entry j is eⱼ/Σe, so the entries lie in [0,1] and sum to 1 |
| EnergyOverlap.EnergyExample | Database/backend/tests/test_lora_energy_overlap.py:14-27 | weights [-1, 0.5, 0] at factor 2 give energies [2, 1, 0], total 3 and [2/3, 1/3, 0] |
| EnergyOverlap.DotOverlap | Database/backend/lora_energy_overlap.py:90-93 | unequal lengths raise the ValueError; otherwise the dot product, the same in either argument order |
| EnergyOverlap.ZipDotSymmetric | Database/backend/lora_energy_overlap.py:93 | the dot product is symmetric |
| EnergyOverlap.ZipDotNonNegative | Database/backend/lora_energy_overlap.py:93 | the dot product of non-negative vectors is non-negative |
| EnergyOverlap.ZipDotAtMostSum | Database/backend/lora_energy_overlap.py:93 | against a vector with entries in [0,1] the dot product is at most the other vector's sum |
| EnergyOverlap.OverlapInUnitInterval | Database/backend/lora_energy_overlap.py:69-93 | the overlap of two normalised energy vectors lies in [0,1] |
| EnergyOverlap.SameIdSameMetrics | Database/backend/lora_energy_overlap.py:96-112 | with distinct ids, an id names one metrics entry |
| EnergyOverlap.OverlapRow | Database/backend/lora_energy_overlap.py:98-111 | a row has an entry for every id; with distinct ids each entry is the dot product with that id's vector; a failure means some lengths differ |
| EnergyOverlap.BuildOverlapMatrix | Database/backend/lora_energy_overlap.py:96-112 | the ValueError exactly when some vector lengths differ; otherwise every pair has an entry, and with distinct ids it is the pair's dot product |
| EnergyOverlap.MatrixComplete | Database/backend/lora_energy_overlap.py:96-112 | the rows filled in turn make the complete matrix |
| EnergyOverlap.OverlapMatrixSymmetric | Database/backend/lora_energy_overlap.py:96-112 | the matrix is symmetric and its diagonal holds each vector's dot with itself |
| EnergyOverlap.RoleOf | Database/backend/lora_energy_overlap.py:129 | a budgeted role keeps its bucket; any other role goes to `other` |
| EnergyOverlap.RoleItemsMember | Database/backend/lora_energy_overlap.py:127-129 | an entry is in a role's bucket exactly when it is in the input and has that role |
| EnergyOverlap.RoleItemsMembers | Database/backend/lora_energy_overlap.py:127-129 | the same for all entries at once |
| EnergyOverlap.TotalRequested | Database/backend/lora_energy_overlap.py:123 | the total requested strength Σ|sᵢ| is non-negative |
| EnergyOverlap.RoleSharesSum | Database/backend/lora_energy_overlap.py:137-149 | the base shares of a role add up to its allocatable amount, or to 0 when the role has no energy |
| EnergyOverlap.RoleSharesWithoutEnergy | Database/backend/lora_energy_overlap.py:139-142 | a role without energy hands out nothing |
| EnergyOverlap.RoleSharesWithEnergy | Database/backend/lora_energy_overlap.py:144-149 | a role with energy hands out exactly min(cap, demand) |
| EnergyOverlap.RoleBudgetRespected | Database/backend/lora_energy_overlap.py:137-149 | a role never hands out more than its budget share of the total nor more than its members requested |
| EnergyOverlap.BaseAllocationProportional | Database/backend/lora_energy_overlap.py:147-149 | within a role, shares are proportional to the members' energies |
| EnergyOverlap.DampingFactorBounds | Database/backend/lora_energy_overlap.py:167-169 | the factor is at most 1, differs from 1 exactly above the threshold, is non-negative for a non-negative threshold, and brings the overlap down to the threshold |
| EnergyOverlap.BaseAllocationNonNegative | Database/backend/lora_energy_overlap.py:137-149 | base allocations are never negative |
| EnergyOverlap.BaseValueNonNegative | Database/backend/lora_energy_overlap.py:131-149 | the base allocation of every entry is non-negative |
| EnergyOverlap.AllocationSign | Database/backend/lora_energy_overlap.py:154-177 | a final strength has the sign of the requested factor and no more magnitude than its base allocation |
| EnergyOverlap.GroupByRole | Database/backend/lora_energy_overlap.py:127-129 | the grouping loop gives every role its bucket, in input order |
| EnergyOverlap.ItemAllocation | Database/backend/lora_energy_overlap.py:139-149 | one member's base allocation: 0 without role energy, else allocatable times its energy share |
| EnergyOverlap.AllocateRole | Database/backend/lora_energy_overlap.py:133-149 | the role loop records a correct base allocation for each member and keeps the earlier ones |
| EnergyOverlap.BaseAllocations | Database/backend/lora_energy_overlap.py:131-149 | every entry has its correct base allocation |
| EnergyOverlap.PeerMaxOverlap | Database/backend/lora_energy_overlap.py:161-165 | the peer loop finds the largest overlap with another member of the role, starting from 0 |
| EnergyOverlap.DampItem | Database/backend/lora_energy_overlap.py:160-171 | with distinct ids, a member's corrected value is its base allocation times its damping factor |
| EnergyOverlap.DampOne | Database/backend/lora_energy_overlap.py:160-171 | one member's corrected value is recorded, and only that key is added |
| EnergyOverlap.DampRole | Database/backend/lora_energy_overlap.py:155-171 | the role loop records every member's corrected value |
| EnergyOverlap.DampAllocations | Database/backend/lora_energy_overlap.py:154-171 | every entry gets its corrected value |
| EnergyOverlap.SignAllocations | Database/backend/lora_energy_overlap.py:173-177 | every id gets its corrected magnitude (0 when absent) times the sign of its factor |
| EnergyOverlap.AllocateStrengthsWithRoleBudgetAndOverlap | Database/backend/lora_energy_overlap.py:115-179 | `{}` for no input, all zeros when nothing is requested, the ValueError exactly for unequal vector lengths; otherwise one strength per id, and with distinct ids each is the role-capped, overlap-damped, signed allocation |
| ClipContribution.ClipKeyCount | Database/backend/clip_contribution.py:25-29 | the count of CLIP keys is at most the number of keys |
| ClipContribution.MatchesAnyToken | Database/backend/clip_contribution.py:28 | the token loop finds a token exactly when one of the CLIP substrings occurs in the lower-cased key |
| ClipContribution.IsClipContributor | Database/backend/clip_contribution.py:18-30 | the count is the number of keys containing a CLIP substring, and the key set contributes exactly when it is positive |
| ClipContribution.ContributorIffSomeClipKey | Database/backend/clip_contribution.py:25-30 | a positive count exactly when some key is a CLIP key |
| ClipContribution.CountedKeyExists | Database/backend/clip_contribution.py:25-30 | a positive count has a CLIP key behind it |
| ClipContribution.ClipKeyIsCounted | Database/backend/clip_contribution.py:25-30 | any CLIP key makes the count positive |
| ClipContribution.ClipKeyCountConcat | Database/backend/clip_contribution.py:26-29 | the count of two key lists together is the sum of their counts |
| ClipContribution.MissingKeyNeverCounts | Database/backend/clip_contribution.py:27 | a missing or empty key (`key or ""`) is never a CLIP key |
| ClipContribution.CaseInsensitive | Database/backend/clip_contribution.py:27 | whether a key is a CLIP key does not depend on its letter case |
| ClipContribution.PlainIsNotClip | Database/backend/clip_contribution.py:6-28 | a key holding none of the letters pairs the CLIP tokens need is not a CLIP key |
| ClipContribution.UnetKeyAIsNotClip | Database/backend/tests/test_clip_contribution.py:11 | the first UNet key of the tests is not a CLIP key |
| ClipContribution.UnetKeyBIsNotClip | Database/backend/tests/test_clip_contribution.py:24 | the second UNet key of the tests is not a CLIP key |
| ClipContribution.TextEncoderKeyIsClip | Database/backend/tests/test_clip_contribution.py:12 | the `lora_te1` key of the tests is a CLIP key |
| ClipContribution.ContributorExamples | Database/backend/tests/test_clip_contribution.py:9-30 | a UNet key beside a te1 key counts 1; two UNet keys count 0 |
| Indexer.ParseBaseAndCategory | Database/backend/lora_indexer.py:71-120 | a path classifies exactly when it has at least three parts; otherwise every field is None; a classified path always has a category name |
| Indexer.WithoutModeFolder | Database/backend/lora_indexer.py:90-97 | dropping the WAN mode folder keeps the base folder and moves the category folder to second place |
| Indexer.AgreesWithSkeleton | Database/backend/lora_indexer.py:71-120 | without a WAN mode folder the indexer classifies like the catalog skeleton; with one, like the skeleton on the path without that folder |
| Indexer.ParseOfJoin | Database/backend/lora_indexer.py:80-120 | a path of three or more folders is classified by its first folder and by its second, or third after a WAN mode folder |
| Indexer.ParseOfWanFolders | Database/backend/lora_indexer.py:84-97 | `WAN2.x/<mode>/<category>/…/file` takes its category from the third folder |
| Indexer.ParseOfModeParts | Database/backend/lora_indexer.py:92-97 | with a WAN mode folder the category comes from the third part |
| Indexer.ParseOfPlainFolders | Database/backend/lora_indexer.py:82-97 | `<base>/<category>/…/file` takes its category from the second folder unless that folder is a WAN mode folder with more below it |
| Indexer.OrNoWeights | Database/backend/lora_indexer.py:397-398 | `value or []`: the list when present, else empty |
| Indexer.NewRecord | Database/backend/lora_indexer.py:358-388 | the record carries the path, its last component as file name, the mtime and the folder classification, and no analysis fields |
| Indexer.Classify | Database/backend/lora_indexer.py:390-425 | only Flux and Flux Krea files are analysed; the flag is set exactly for a non-empty weight list, with the layout built from its length; an empty list gives the 16-block fallback; non-Flux files and failed analyses store no weights and no layout |
| Indexer.StoredLayoutIsRecognised | Database/backend/lora_indexer.py:400-406 | every layout the indexer stores is one the layout parser accepts and expects the number of stored blocks (16 for the fallback) |
| Indexer.FindRow | Database/backend/lora_indexer.py:223-226 | the row found carries the path; no row found means no row has it |
| Indexer.UpsertRows | Database/backend/lora_indexer.py:229-303 | a new path takes the next id; an existing one keeps its id; no row is lost |
| Indexer.FindRowAppend | Database/backend/lora_indexer.py:233-264 | after an insert the new row is found by its path and other paths are found where they were |
| Indexer.FindRowUpdate | Database/backend/lora_indexer.py:265-300 | an update in place keeps every lookup |
| Indexer.UpsertStoresRecord | Database/backend/lora_indexer.py:229-303 | after the upsert the record's path leads to a row holding the record, the returned id and `updated_at = now` |
| Indexer.UpsertKeepsOtherRows | Database/backend/lora_indexer.py:229-303 | rows of other paths are unchanged and found where they were |
| Indexer.UpsertKeepsIdentity | Database/backend/lora_indexer.py:265-303 | an update keeps the table size, the row's id and its `created_at` |
| Indexer.UpsertKeepsInvariant | Database/backend/lora_indexer.py:229-303 | paths stay unique, ids stay distinct and no higher than the last one handed out; the returned id is positive |
| Indexer.UpsertIdempotent | Database/backend/lora_indexer.py:229-303 | upserting the same record again with the same time changes nothing |
| Indexer.WithoutLora | Database/backend/lora_indexer.py:313 | the delete keeps exactly the rows of other LoRAs |
| Indexer.Tagged | Database/backend/lora_indexer.py:316-325 | one stored row per new weight row |
| Indexer.WeightsOf | Database/backend/lora_indexer.py:189-198 | a LoRA's weight rows are drawn from the table |
| Indexer.WeightsOfConcat | Database/backend/lora_indexer.py:306-325 | a LoRA's rows in two tables together are its rows in each, in order |
| Indexer.WeightsOfWithout | Database/backend/lora_indexer.py:313 | after the delete the LoRA has no rows and every other LoRA keeps its own |
| Indexer.WeightsOfTagged | Database/backend/lora_indexer.py:316-325 | the inserted rows all belong to the LoRA written |
| Indexer.ReplaceLeavesExactlyNewRows | Database/backend/lora_indexer.py:306-325 | after `replace_block_weights` the LoRA has exactly the new rows and every other LoRA its old ones |
| Indexer.Count | Database/backend/lora_indexer.py:403-434 | a processed file advances `processed` and at most one of the error, with-weights and fallback counters |
| Indexer.StepKeepsInvariant | Database/backend/lora_indexer.py:357-434 | one iteration keeps the table invariant |
| Indexer.IndexAllKeepsInvariant | Database/backend/lora_indexer.py:357-434 | the whole loop keeps the table invariant |
| Indexer.IndexAllCounts | Database/backend/lora_indexer.py:351-434 | every file is processed or skipped, and the three kind counters add up to at most `processed` |
| Indexer.StepUpdatesItsFile | Database/backend/lora_indexer.py:366-434 | after its iteration a file's row carries its mtime |
| Indexer.StepKeepsOtherRows | Database/backend/lora_indexer.py:366-434 | an iteration touches no row of another path |
| Indexer.StepKeepsOtherFile | Database/backend/lora_indexer.py:366-434 | a file that was up to date stays up to date while another file is processed |
| Indexer.StepKeepsLastUpToDate | Database/backend/lora_indexer.py:357-434 | up-to-date rows for the last occurrence of each path persist across one more file |
| Indexer.IndexAllLeavesFilesUpToDate | Database/backend/lora_indexer.py:357-434 | after the loop every file's row carries the mtime of its last occurrence |
| Indexer.IndexAllKeepsPaths | Database/backend/lora_indexer.py:357-434 | a path with a row keeps a row through the loop |
| Indexer.UnchangedFilesAreSkipped | Database/backend/lora_indexer.py:366-373 | when every file is up to date the loop changes nothing but the skip counter |
| Indexer.SecondRunSkipsEverything | Database/backend/lora_indexer.py:455-456 | re-running on the same distinct files skips them all and leaves the database as it was |
| Indexer.LoraTable.constructor | Database/backend/lora_indexer.py:148-218 | a fresh database has both tables empty |
| Indexer.LoraTable.Upsert | Database/backend/lora_indexer.py:229-303 | the table becomes the upserted rows, keeps its invariant and the weight table |
| Indexer.LoraTable.ReplaceBlockWeights | Database/backend/lora_indexer.py:306-325 | the weight table loses the LoRA's rows and gains the zipped new ones; the `lora` table is unchanged |
| Indexer.LoraTable.IndexFile | Database/backend/lora_indexer.py:357-434 | one iteration changes the tables and counters as `Step` says |
| Indexer.LoraTable.ProcessFile | Database/backend/lora_indexer.py:375-434 | a changed file is classified, upserted, has its weights replaced when it has any, and is counted |
| Indexer.LoraTable.IndexFiles | Database/backend/lora_indexer.py:351-434 | the main loop leaves the tables and counters that `IndexAll` describes, keeping the invariant |
| CatalogSkeleton.BaseModelOf | Database/backend/lora_catalog_skeleton.py:94-104 | a folder in the base-model table takes its code and human name; any other keeps its own name and no code |
| CatalogSkeleton.CategoryOf | Database/backend/lora_catalog_skeleton.py:106-122 | a category folder whose first word is a table index takes that code and name; any other keeps the folder name and no code |
| CatalogSkeleton.ParseBaseAndCategory | Database/backend/lora_catalog_skeleton.py:61-124 | a path classifies exactly when it has at least three parts; otherwise all four fields are None; a classified path always has a category name |
| CatalogSkeleton.ParseOfFolders | Database/backend/lora_catalog_skeleton.py:86-124 | `<base>/<category>/…/file` is classified by its first two folders |
| CatalogSkeleton.ParseOfParts | Database/backend/lora_catalog_skeleton.py:86-124 | a split of three or more parts is classified by parts 0 and 1 |
| CatalogSkeleton.ParseDependsOnFirstTwoFolders | Database/backend/lora_catalog_skeleton.py:91-92 | two paths with the same first two folders classify alike |
| CatalogSkeleton.CategoryIndexIsFirstWord | Database/backend/lora_catalog_skeleton.py:112-113 | the index looked up is the stripped text before the first space |
| CatalogSkeleton.JoinHead | Database/backend/lora_catalog_skeleton.py:86 | a joined path starts with its first part followed by the separator |
| CatalogSkeleton.BasenameIsLastPart | Database/backend/lora_catalog_skeleton.py:130 | the file name holds no separator and is the whole path or the part after its last separator |
| CatalogSkeleton.BuildLoraRecord | Database/backend/lora_catalog_skeleton.py:127-149 | the record keeps the normalised path, its last component as file name and the folder classification, with no analysis fields |
| CatalogSkeleton.ParseOfThreeParts | Database/backend/lora_catalog_skeleton.py:73-75 | the documented layout `<BASE>/<NN - Category>/file` is classified by its two folders |
| CatalogSkeleton.SplitHead | Database/backend/lora_catalog_skeleton.py:86 | splitting `head + sep + rest` starts with `head` |
| CatalogSkeleton.NumberedCategory | Database/backend/lora_catalog_skeleton.py:107-113 | a folder `NN <title>` with two digits looks up `NN` |
| DeltaInspector.IndexAfter | Database/backend/delta_inspector_engine.py:59-73 | `(\d+)` followed by the pattern's terminator: a non-empty digit run ending right before that character, read as its value |
| DeltaInspector.MatchAt | Database/backend/delta_inspector_engine.py:59-73 | a match at a position has one of the pattern's literal prefixes there |
| DeltaInspector.SearchIgnoresCase | Database/backend/delta_inspector_engine.py:59-73 | every pattern is case-insensitive: lower-casing the key changes no search |
| DeltaInspector.BucketOf | Database/backend/delta_inspector_engine.py:162-189 | a key goes to the first pattern, in order transformer, double, single, te, that matches it, with that match's index; to none exactly when none matches |
| DeltaInspector.NoPatternMatches | Database/backend/delta_inspector_engine.py:162-189 | a key none of the four patterns matches is ignored |
| DeltaInspector.Append | Database/backend/delta_inspector_engine.py:162-189 | `setdefault(idx, []).append(arr)` adds idx as a key, appends to its list and leaves every other list alone |
| DeltaInspector.AddTo | Database/backend/delta_inspector_engine.py:162-189 | a tensor goes to one bucket map; the other three are unchanged |
| DeltaInspector.Collected | Database/backend/delta_inspector_engine.py:162-189 | a block's list holds at most one norm per tensor |
| DeltaInspector.BucketAllCollects | Database/backend/delta_inspector_engine.py:162-189 | after the scan, each bucket's block i holds exactly the norms of the tensors matched to it, in file order, and i is a key exactly when there are some |
| DeltaInspector.BucketTensors | Database/backend/delta_inspector_engine.py:156-189 | the scan loop builds the four bucket maps |
| DeltaInspector.HasMinimum | Database/backend/delta_inspector_engine.py:90 | a non-empty set of block indices has a least element |
| DeltaInspector.SortedKeys | Database/backend/delta_inspector_engine.py:90 | `sorted(blocks.keys())` is strictly increasing and holds exactly the keys |
| DeltaInspector.IncreasingUnique | Database/backend/delta_inspector_engine.py:90 | only one increasing list holds a given set |
| DeltaInspector.StrengthsAt | Database/backend/delta_inspector_engine.py:93-97 | one raw strength per sorted index |
| DeltaInspector.Normalise | Database/backend/delta_inspector_engine.py:99-103 | one normalised value per raw strength |
| DeltaInspector.NormaliseBounds | Database/backend/delta_inspector_engine.py:99-103 | non-negative strengths normalise into [0,1] (for a rounding that keeps [0,1]); the strongest block becomes 1 when rounding keeps 1; all zeros give zeros |
| DeltaInspector.SumNorms | Database/backend/delta_inspector_engine.py:94-96 | the inner loop adds the norms of a block's tensors |
| DeltaInspector.SortKeys | Database/backend/delta_inspector_engine.py:90 | the sort yields the increasing list of the keys |
| DeltaInspector.BlockSums | Database/backend/delta_inspector_engine.py:93-97 | the outer loop yields one summed strength per index |
| DeltaInspector.AccumulateBlockStrengths | Database/backend/delta_inspector_engine.py:76-105 | no blocks give three empty lists; otherwise the sorted indices, their summed strengths and their normalisation |
| DeltaInspector.AccumulatedShape | Database/backend/delta_inspector_engine.py:76-105 | indices, raw and normalised strengths all have one entry per block key |
| DeltaInspector.SortedHasEachKeyOnce | Database/backend/delta_inspector_engine.py:90 | the sorted index list has as many entries as there are keys |
| DeltaInspector.Unet57Raw | Database/backend/delta_inspector_engine.py:116-124 | the double-plus-single vector has 19 + 38 = 57 entries |
| DeltaInspector.ComputeFluxUnet57Strengths | Database/backend/delta_inspector_engine.py:108-132 | the two loops give the 57 raw strengths and their normalisation |
| DeltaInspector.Unet57Positions | Database/backend/delta_inspector_engine.py:113-124 | positions 0..18 are the double blocks and 19..56 the single blocks; a missing index contributes 0 |
| DeltaInspector.Unet57IgnoresOtherBlocks | Database/backend/delta_inspector_engine.py:118-124 | blocks at indices beyond 18 (double) or 37 (single) do not affect the result |
| DeltaInspector.CaseOf | Database/backend/delta_inspector_engine.py:191-300 | transformer blocks win; then double with single, double alone, te alone; no case exactly when there are no transformer, double or te blocks |
| DeltaInspector.CaseRawLength | Database/backend/delta_inspector_engine.py:191-290 | the UNet case has 57 strengths; the other cases one per block key |
| DeltaInspector.CollectedNonNegative | Database/backend/delta_inspector_engine.py:96 | collected norms are never negative |
| DeltaInspector.BlockSumNonNegative | Database/backend/delta_inspector_engine.py:93-97 | a block's summed strength is never negative |
| DeltaInspector.SortedStrengthsNonNegative | Database/backend/delta_inspector_engine.py:90-97 | the accumulated raw strengths are never negative |
| DeltaInspector.Unet57RawNonNegative | Database/backend/delta_inspector_engine.py:116-124 | the 57 raw strengths are non-negative when every block sum is |
| DeltaInspector.BucketSumsNonNegative | Database/backend/delta_inspector_engine.py:162-189 | every bucket's block sums are non-negative |
| DeltaInspector.Unet57NonNegative | Database/backend/delta_inspector_engine.py:108-124 | the 57 raw strengths of a scanned file are non-negative |
| DeltaInspector.CaseRawNonNegative | Database/backend/delta_inspector_engine.py:191-290 | every case's raw strengths are non-negative |
| DeltaInspector.FluxWeightsAreUnitScaled | Database/backend/delta_inspector_engine.py:191-290 | a recognised file's block weights lie in [0,1], match the raw strengths one to one, and include 1 for the strongest block |
| DeltaInspector.AnalyseFluxBlocks | Database/backend/delta_inspector_engine.py:137-300 | the ValueError exactly when no case applies; otherwise the analysis of the first case that applies |
| DeltaInspector.DispatchOf | Database/backend/delta_inspector_engine.py:317-340 | Flux analysis exactly for FLX, FLK or an empty code (in any case), passing the upper-cased code or None; the WAN placeholder exactly for W21 and W22 |
| DeltaInspector.DispatchIgnoresCase | Database/backend/delta_inspector_engine.py:317 | the dispatch does not depend on the code's letter case, and a missing code dispatches like an empty one |
| DeltaInspector.WanPlaceholderAnalysis | Database/backend/delta_inspector_engine.py:322-335 | the WAN placeholder has no layout, no weights, no strengths, no rank, and carries the upper-cased code |
| DeltaInspector.InspectLora | Database/backend/delta_inspector_engine.py:305-342 | a missing file raises FileNotFoundError; other codes raise NotImplementedError; WAN codes give the placeholder; Flux codes give the Flux analysis of the upper-cased code or its ValueError |
| ProfileBuilder.BucketNamesAreProfileBuckets | Database/backend/profile_builder.py:17-27 | every bucket names one of the nine `PROFILE_BUCKETS` values, distinct buckets have distinct names, and a name is a non-empty single path component |
| ProfileBuilder.FirstRuleIsFirstMatch | Database/backend/profile_builder.py:54-80 | the chosen rule matches the lower-cased file name and no earlier rule does; no rule is chosen exactly when none matches |
| ProfileBuilder.DetectBucket | Database/backend/profile_builder.py:41-87 | a name rule gives its label and bucket; otherwise the flux bucket exactly when the stripped engine family is "flux" in any case, else the other bucket labelled with that family or "Unknown" |
| ProfileBuilder.DetectBucketLabelNonEmpty | Database/backend/profile_builder.py:41-87 | the family label is never empty |
| ProfileBuilder.SdxlImpliesXl | Database/backend/profile_builder.py:67 | "sdxl" in the name already implies "xl", so the second test subsumes the first |
| ProfileBuilder.IllustriousImpliesIllu | Database/backend/profile_builder.py:79 | "illustrious" in the name already implies "illu" |
| ProfileBuilder.LastDot | Database/backend/profile_builder.py:119 | the position of the last '.', or none when there is none |
| ProfileBuilder.SplitExt | Database/backend/profile_builder.py:119 | `os.path.splitext`: stem and extension rejoin to the name; the extension is empty or one dot followed by no dot, and a name made only of leading dots has no extension |
| ProfileBuilder.LastDotIs | Database/backend/profile_builder.py:119 | a '.' with no '.' after it is the last dot |
| ProfileBuilder.SplitExtOfJoin | Database/backend/profile_builder.py:118-119 | a stem that is not only dots, joined to a dot-free extension, splits back into the two |
| ProfileBuilder.BlockStats | Database/backend/profile_builder.py:131-142 | the weights and raw strengths are kept; the count is the longer length; max and mean are 0 for no weights, otherwise the largest weight and the arithmetic mean |
| ProfileBuilder.MeanAtMostMax | Database/backend/profile_builder.py:137-142 | the mean never exceeds the maximum, and both are non-negative for non-negative weights |
| ProfileBuilder.UnitWeightStats | Database/backend/profile_builder.py:131-142 | weights in [0,1] of the same length as the raw strengths give 0 <= mean <= max <= 1 and count equal to that length |
| ProfileBuilder.ProfileOf | Database/backend/profile_builder.py:117-193 | the profile records the path, its base name, stem and extension, the detected bucket's name, and the block statistics of the analysis |
| ProfileBuilder.BuildProfileForLora | Database/backend/profile_builder.py:93-208 | a missing file raises FileNotFoundError; an unsupported code raises NotImplementedError; WAN codes give the placeholder's profile; Flux codes give the profile of the Flux analysis or its ValueError |
| ProfileBuilder.FluxFamilyIsNotOther | Database/backend/profile_builder.py:82-87 | a file the engine calls "Flux" is never put in the other bucket |
| ProfileBuilder.FluxFamilyNormalises | Database/backend/profile_builder.py:83 | the engine's "Flux" strips and lower-cases to "flux" |
| ProfileBuilder.NormalisesToFlux | Database/backend/profile_builder.py:52-83 | the characters F, l, u, x strip and lower-case to "flux" |
| ProfileBuilder.FluxProfileIsUnitScaled | Database/backend/profile_builder.py:128-142 | a Flux file's profile has 0 <= mean <= max <= 1, one count per weight, and a bucket other than "other" |
| ProfilesIndex.ProfileFileNames | Database/backend/profiles_index.py:13-14 | the `_profile.json` test ignores case, and every stem plus that suffix passes it |
| ProfilesIndex.IdStem | Database/backend/profiles_index.py:46 | the file stem if truthy, else the file name if truthy, else "unknown"; never empty |
| ProfilesIndex.IdBucket | Database/backend/profiles_index.py:47 | the model bucket if truthy, else "unknown"; never empty |
| ProfilesIndex.MakeProfileId | Database/backend/profiles_index.py:36-49 | the id is the bucket, a '/', then the stem, and nothing else |
| ProfilesIndex.FirstIndexOf | Database/backend/profiles_index.py:49 | the position of the first separator, or the length when there is none |
| ProfilesIndex.FirstIndexOfJoin | Database/backend/profiles_index.py:49 | in `a/b` with no '/' in a, the first '/' sits right after a |
| ProfilesIndex.JoinAtFirstSeparator | Database/backend/profiles_index.py:49 | `a/b == c/d` with no '/' in a or c forces a == c and b == d |
| ProfilesIndex.MakeProfileIdInjective | Database/backend/profiles_index.py:36-49 | ids of documents whose buckets have no '/' are equal only when bucket and stem are |
| ProfilesIndex.BuiltProfileIdsDistinct | Database/backend/profiles_index.py:36-49 | two built profiles get the same id only when they share bucket and stem |
| ProfilesIndex.WithId | Database/backend/profiles_index.py:75-79 | a truthy `profile_id` is kept; otherwise the made id is stored; afterwards the id is truthy |
| ProfilesIndex.Loaded | Database/backend/profiles_index.py:67-82 | at most one document per path, each with a truthy id |
| ProfilesIndex.LoadedPlusErrors | Database/backend/profiles_index.py:65-87 | loaded plus errors is the number of scanned paths |
| ProfilesIndex.LoadedConcat | Database/backend/profiles_index.py:67-82 | loading is piecewise over the scan order |
| ProfilesIndex.LoadedSingle | Database/backend/profiles_index.py:68-82 | a parse failure loads nothing; a parsed document is loaded with its id ensured |
| ProfilesIndex.LastWithId | Database/backend/profiles_index.py:81 | the last position holding a given id, or none when no document holds it |
| ProfilesIndex.CacheHoldsLast | Database/backend/profiles_index.py:81 | an id is cached exactly when some loaded document has it, and the later of two documents with the same id wins |
| ProfilesIndex.CacheKeysAreIds | Database/backend/profiles_index.py:76-81 | the document cached under an id carries that id |
| ProfilesIndex.ProfileStore.constructor | Database/backend/profiles_index.py:9-10 | the cache and the list start empty |
| ProfilesIndex.ProfileStore.Reload | Database/backend/profiles_index.py:52-87 | the list is the loaded documents in order, the cache maps each id to its last document, and the counts are the loaded and failed paths |
| ProfilesIndex.ProfileStore.GetProfile | Database/backend/profiles_index.py:98-105 | found exactly when some listed document has the id, then the last such document, carrying that id; otherwise a KeyError naming the id |
| ProfilesIndex.ProfileStore.EnsureLoadedOnce | Database/backend/profiles_index.py:108-114 | a non-empty cache is left alone; an empty one triggers a reload |

## Left out

- File-system and database I/O are not modelled: SQLite queries, JSON files, `os.makedirs`, `os.walk`, `os.path.getsize` and progress printing.
  - Database rows and parsed JSON documents are inputs. Writes are returned values or class state.
  - SQL `ORDER BY` is modelled as the order of the given rows.
  - `reload_profiles` takes the parse outcome of each scanned file, in scan order.
- File discovery is not modelled: `find_lora_files`, the indexer's walk over the LoRA root, and `_scan_profile_files`. The sorted list of discovered files is an input.
- `os.path.relpath`, `os.path.normpath` and `os.path.abspath` are abstracted. The relative path is given, or is `None` where `relpath` fails.
  - `basename` is the last part after a single separator character.
  - `splitext` is applied to that base name.
- Reading safetensors files and computing tensor norms with torch are not modelled. Norms are given as non-negative reals.
- Reals are exact. There is no floating-point rounding in sums, quotients or the `1e-6` comparison of modification times.
- UnetBlocks.ExtractUnet57BlockStrengths: uses the exact quotient raw/max instead of `round(..., 6)`, so the largest normalised entry is exactly 1.
- EnergyOverlap: the claims about values are stated for inputs whose LoRA ids are distinct.
  - With repeated ids, Python's dictionaries keep the last entry; the model proves nothing about the values in that case.
- Case mapping is ASCII only. Unicode case folding and Unicode digits matched by the regex `\d` are not modelled.
- Text that is only reported is not modelled:
  - the texts of warnings and exceptions (errors are constructors of datatypes);
  - `notes` strings;
  - `generated_at` (which comes from the clock), `schema_version` and the classification fields of a profile;
  - the size fields `size_bytes` and `size_mb`.
- `get_all_profiles` returns a copy of the profile list; the model exposes that list as the `list` field of `ProfilesIndex.ProfileStore`.
- `weights_to_csv`, `block_weights_csv` and the CSV export endpoint turn numbers into text and are not modelled.
- The combined CLIP vector in the composer is computed but never returned, so it is not modelled.
- Profile JSON documents whose `profile_id` is not a string are not modelled: `profile_id` is an optional string.
- Concurrency, locks, FastAPI routing and the command-line entry points are not modelled.
- The following endpoints are not modelled beyond the layout and payload decisions listed in the table: `/api/lora/search` (its SQL), `/api/lora/{stable_id}`, `/api/lora/index_status`, listing, deleting and exporting profiles, `/health`, `/inspect`, and the re-indexing endpoints `reindex_all`, `reindex_one` and `reindex_unet57`.
  - The re-indexing endpoints are modelled only through `ApiServer.PersistAnalysisForLora` and `ApiServer.BackfillFluxLayouts`.
- ApiServer.CreateProfile, ApiServer.UpdateProfile: the `float()` conversion of the entries is taken as done. A list `float()` accepts (numbers, numeric strings, booleans) arrives as its converted values, and any other list is the `NonNumeric` case. A `profile_name` that is not a string is not modelled.
- ApiServer.ValidateBlocksResponse: blocks always carry an integer index and a numeric or missing weight, so the branches for non-integer indices and non-numeric weights (lora_api_server.py:263-267, 271-278, 289-291) are not modelled. The `lora_block_weights` columns are `INTEGER` and `REAL NOT NULL` (lora_indexer.py:192-193), so stored rows never reach those branches.
- ProfilesIndex.ProfileStore.Reload: a parsed JSON document is modelled as a profile object whose `file` and `model` are objects. A document that is not an object, or whose `file` or `model` is null, makes `profile.get(...)` raise outside the `try` (profiles_index.py:76-78); that exception is not modelled.
