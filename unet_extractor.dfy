/**
 * UnetBlocks: the name-based map from UNet tensor keys to the 57 logical
 * blocks (stem 0..3, down blocks 4..23, mid block 24..26, up blocks 27..54,
 * output head 55..56) and the extraction of per-block strengths from
 * per-tensor norms.
 *
 * The key patterns are case-insensitive searches; they are modelled on the
 * lower-cased key. Every pattern starts with `(?:^|[._])(?:lora_)?unet[._]`:
 * the optional `lora_` ends with `_`, so a match is anchored at an
 * occurrence of `unet` that begins the key or follows `.` or `_`, and since
 * `lora_` holds no `u`, the leftmost match is the one whose `unet` comes
 * first. A digit group `(\d+)` is always followed by a separator or the end,
 * so it is the whole digit run.
 */
module UnetBlocks {
  import opened Text
  import opened Numeric

  const Unet57BlockCount: nat := 57

  // ---------------------------------------------------------------
  // Logical blocks
  // ---------------------------------------------------------------

  datatype Stem = ConvIn | TimeLinear1 | TimeLinear2 | AddEmbedding | ConvNormOut | ConvOut

  /** The stem patterns in the order they are tried. */
  const StemOrder: seq<Stem> := [ConvIn, TimeLinear1, TimeLinear2, AddEmbedding, ConvNormOut, ConvOut]

  function StemIndex(stem: Stem): nat
  {
    match stem
    case ConvIn => 0
    case TimeLinear1 => 1
    case TimeLinear2 => 2
    case AddEmbedding => 3
    case ConvNormOut => 55
    case ConvOut => 56
  }

  /** A position in the UNet named by a key: a stem part or a (block, family, inner) triple. */
  datatype Slot =
    | StemSlot(stem: Stem)
    | DownSlot(block: int, family: string, inner: int)
    | MidSlot(family: string, inner: int)
    | UpSlot(block: int, family: string, inner: int)

  /** The `ValueError`s the index helpers raise. */
  datatype MapError =
    | UnsupportedDownBlock(block: int)
    | UnsupportedDownFamily(family: string, inner: int)
    | UnsupportedMidFamily(family: string, inner: int)
    | UnsupportedUpBlock(block: int)
    | UnsupportedUpFamily(family: string, inner: int)

  function DownOffset(family: string, inner: int): (r: Option<nat>)
    ensures r.Some? ==> r.value < 5
  {
    if family == "resnets" && inner == 0 then Some(0)
    else if family == "resnets" && inner == 1 then Some(1)
    else if family == "attentions" && inner == 0 then Some(2)
    else if family == "attentions" && inner == 1 then Some(3)
    else if family == "downsamplers" && inner == 0 then Some(4)
    else None
  }

  function MidOffset(family: string, inner: int): (r: Option<nat>)
    ensures r.Some? ==> 24 <= r.value <= 26
  {
    if family == "resnets" && inner == 0 then Some(24)
    else if family == "attentions" && inner == 0 then Some(25)
    else if family == "resnets" && inner == 1 then Some(26)
    else None
  }

  function UpOffset(family: string, inner: int): (r: Option<nat>)
    ensures r.Some? ==> r.value < 7
  {
    if family == "resnets" && inner == 0 then Some(0)
    else if family == "resnets" && inner == 1 then Some(1)
    else if family == "resnets" && inner == 2 then Some(2)
    else if family == "attentions" && inner == 0 then Some(3)
    else if family == "attentions" && inner == 1 then Some(4)
    else if family == "attentions" && inner == 2 then Some(5)
    else if family == "upsamplers" && inner == 0 then Some(6)
    else None
  }

  /** `_down_index`: the block number is checked before the family. */
  function DownIndex(block: int, family: string, inner: int): (r: Result<nat, MapError>)
    ensures r.Ok? ==> 4 <= r.value <= 23
    ensures r.Err? && (block < 0 || block > 3) ==> r.error == UnsupportedDownBlock(block)
  {
    if block < 0 || block > 3 then Err(UnsupportedDownBlock(block))
    else
      match DownOffset(Lower(family), inner)
      case None => Err(UnsupportedDownFamily(Lower(family), inner))
      case Some(o) => Ok(4 + block * 5 + o)
  }

  /** `_mid_index` */
  function MidIndex(family: string, inner: int): (r: Result<nat, MapError>)
    ensures r.Ok? ==> 24 <= r.value <= 26
  {
    match MidOffset(Lower(family), inner)
    case None => Err(UnsupportedMidFamily(Lower(family), inner))
    case Some(i) => Ok(i)
  }

  /** `_up_index`: the block number is checked before the family. */
  function UpIndex(block: int, family: string, inner: int): (r: Result<nat, MapError>)
    ensures r.Ok? ==> 27 <= r.value <= 54
    ensures r.Err? && (block < 0 || block > 3) ==> r.error == UnsupportedUpBlock(block)
  {
    if block < 0 || block > 3 then Err(UnsupportedUpBlock(block))
    else
      match UpOffset(Lower(family), inner)
      case None => Err(UnsupportedUpFamily(Lower(family), inner))
      case Some(o) => Ok(27 + block * 7 + o)
  }

  /** The block a slot stands for, or the error the index helpers raise for it. */
  function SlotIndex(slot: Slot): (r: Result<nat, MapError>)
    ensures r.Ok? ==> r.value < Unet57BlockCount
  {
    match slot
    case StemSlot(stem) => Ok(StemIndex(stem))
    case DownSlot(b, f, i) => DownIndex(b, f, i)
    case MidSlot(f, i) => MidIndex(f, i)
    case UpSlot(b, f, i) => UpIndex(b, f, i)
  }

  /** The slot with its family name lower-cased, as the index helpers see it. */
  function Canonical(slot: Slot): Slot
  {
    match slot
    case StemSlot(_) => slot
    case DownSlot(b, f, i) => DownSlot(b, Lower(f), i)
    case MidSlot(f, i) => MidSlot(Lower(f), i)
    case UpSlot(b, f, i) => UpSlot(b, Lower(f), i)
  }

  /** The slot of each of the 57 blocks, following the layout the map documents. */
  function SlotFor(n: nat): Slot
    requires n < Unet57BlockCount
  {
    if n == 0 then StemSlot(ConvIn)
    else if n == 1 then StemSlot(TimeLinear1)
    else if n == 2 then StemSlot(TimeLinear2)
    else if n == 3 then StemSlot(AddEmbedding)
    else if n < 24 then
      var o := (n - 4) % 5;
      DownSlot((n - 4) / 5,
               if o < 2 then "resnets" else if o < 4 then "attentions" else "downsamplers",
               if o == 4 then 0 else o % 2)
    else if n == 24 then MidSlot("resnets", 0)
    else if n == 25 then MidSlot("attentions", 0)
    else if n == 26 then MidSlot("resnets", 1)
    else if n < 55 then
      var o := (n - 27) % 7;
      UpSlot((n - 27) / 7,
             if o < 3 then "resnets" else if o < 6 then "attentions" else "upsamplers",
             if o == 6 then 0 else o % 3)
    else if n == 55 then StemSlot(ConvNormOut)
    else StemSlot(ConvOut)
  }

  /** Every one of the 57 blocks is named by some slot. */
  lemma SlotIndexCovers(n: nat)
    requires n < Unet57BlockCount
    ensures SlotIndex(SlotFor(n)) == Ok(n)
  {
    if 4 <= n < 24 {
      DownCovers(n);
    } else if 24 <= n <= 26 {
      LowerOfLowerCase("resnets");
      LowerOfLowerCase("attentions");
    } else if 27 <= n < 55 {
      UpCovers(n);
    }
  }

  lemma DownCovers(n: nat)
    requires 4 <= n < 24
    ensures SlotIndex(SlotFor(n)) == Ok(n)
  {
    var b, o := (n - 4) / 5, (n - 4) % 5;
    assert n == 4 + b * 5 + o;
    LowerOfLowerCase("resnets");
    LowerOfLowerCase("attentions");
    LowerOfLowerCase("downsamplers");
  }

  lemma UpCovers(n: nat)
    requires 27 <= n < 55
    ensures SlotIndex(SlotFor(n)) == Ok(n)
  {
    var b, o := (n - 27) / 7, (n - 27) % 7;
    assert n == 27 + b * 7 + o;
    LowerOfLowerCase("resnets");
    LowerOfLowerCase("attentions");
    LowerOfLowerCase("upsamplers");
  }

  /** No two different slots share a block: the map is one-to-one up to the case of family names. */
  lemma SlotIndexInjective(a: Slot, b: Slot)
    requires SlotIndex(a).Ok? && SlotIndex(a) == SlotIndex(b)
    ensures Canonical(a) == Canonical(b)
  {
    var n := SlotIndex(a).value;
    if a.DownSlot? && b.DownSlot? {
      BlockOffsetUnique(a.block, DownOffset(Lower(a.family), a.inner).value,
                        b.block, DownOffset(Lower(b.family), b.inner).value, 5);
      DownOffsetInjective(Lower(a.family), a.inner, Lower(b.family), b.inner);
    } else if a.UpSlot? && b.UpSlot? {
      BlockOffsetUnique(a.block, UpOffset(Lower(a.family), a.inner).value,
                        b.block, UpOffset(Lower(b.family), b.inner).value, 7);
      UpOffsetInjective(Lower(a.family), a.inner, Lower(b.family), b.inner);
    } else if a.MidSlot? && b.MidSlot? {
      MidOffsetInjective(Lower(a.family), a.inner, Lower(b.family), b.inner);
    }
  }

  lemma BlockOffsetUnique(b1: int, o1: nat, b2: int, o2: nat, width: nat)
    requires 0 <= b1 <= 3 && 0 <= b2 <= 3 && o1 < width && o2 < width
    requires b1 * width + o1 == b2 * width + o2
    ensures b1 == b2 && o1 == o2
  {
  }

  lemma DownOffsetInjective(f1: string, i1: int, f2: string, i2: int)
    requires DownOffset(f1, i1).Some? && DownOffset(f1, i1) == DownOffset(f2, i2)
    ensures f1 == f2 && i1 == i2
  {
  }

  lemma MidOffsetInjective(f1: string, i1: int, f2: string, i2: int)
    requires MidOffset(f1, i1).Some? && MidOffset(f1, i1) == MidOffset(f2, i2)
    ensures f1 == f2 && i1 == i2
  {
  }

  lemma UpOffsetInjective(f1: string, i1: int, f2: string, i2: int)
    requires UpOffset(f1, i1).Some? && UpOffset(f1, i1) == UpOffset(f2, i2)
    ensures f1 == f2 && i1 == i2
  {
  }

  // ---------------------------------------------------------------
  // Key patterns (on the lower-cased key)
  // ---------------------------------------------------------------

  predicate SepAt(s: string, i: int)
  {
    0 <= i < |s| && (s[i] == '.' || s[i] == '_')
  }

  /** `(?:[._]|$)` at `i`; `$` also matches just before a final newline. */
  predicate EndOrSepAt(s: string, i: int)
  {
    i == |s| || SepAt(s, i) || (|s| > 0 && i == |s| - 1 && s[i] == '\n')
  }

  /** `(?:^|[._])(?:lora_)?unet[._]` with its `unet` at `q`. */
  predicate UnetAnchorAt(s: string, q: int)
  {
    0 <= q && (q == 0 || SepAt(s, q - 1)) && MatchesAt(s, q, "unet") && SepAt(s, q + 4)
  }

  /** The word `w` at `i`, followed by a separator or the end. */
  predicate WordThenEnd(s: string, i: int, w: string)
  {
    MatchesAt(s, i, w) && EndOrSepAt(s, i + |w|)
  }

  /** `(?:time_embedding|time_embed)[._](?:<a>|<b>)(?:[._]|$)` at `i`. */
  predicate TimeEmbeddingAt(s: string, i: int, a: string, b: string)
  {
    exists e | e in ["time_embedding", "time_embed"] ::
      MatchesAt(s, i, e) && SepAt(s, i + |e|)
      && (WordThenEnd(s, i + |e| + 1, a) || WordThenEnd(s, i + |e| + 1, b))
  }

  /** Stem pattern `stem` matches with its `unet` at `q`. */
  predicate StemAt(s: string, q: int, stem: Stem)
  {
    UnetAnchorAt(s, q) &&
    match stem
    case ConvIn => WordThenEnd(s, q + 5, "conv_in")
    case TimeLinear1 => TimeEmbeddingAt(s, q + 5, "linear_1", "0")
    case TimeLinear2 => TimeEmbeddingAt(s, q + 5, "linear_2", "2")
    case AddEmbedding => WordThenEnd(s, q + 5, "add_embedding") || WordThenEnd(s, q + 5, "class_embedding")
    case ConvNormOut => WordThenEnd(s, q + 5, "conv_norm_out")
    case ConvOut => WordThenEnd(s, q + 5, "conv_out")
  }

  /** `pattern.search(key)` for a stem pattern. */
  predicate StemSearch(s: string, stem: Stem)
  {
    exists q | 0 <= q <= |s| :: StemAt(s, q, stem)
  }

  /** End of the digit run that starts at `i`. */
  function DigitRunEnd(s: string, i: nat): (j: nat)
    requires i <= |s|
    ensures i <= j <= |s|
    ensures AllDigits(s[i..j])
    ensures j == |s| || !IsDigit(s[j])
    decreases |s| - i
  {
    if i < |s| && IsDigit(s[i]) then
      var j := DigitRunEnd(s, i + 1);
      assert s[i..j] == [s[i]] + s[i + 1..j];
      j
    else i
  }

  /** The groups a region pattern captures; the mid-block pattern has no block number and leaves it 0. */
  datatype Groups = Groups(block: nat, family: string, inner: nat)

  /** The first family name of `families` at `i`. */
  function FamilyAt(s: string, i: int, families: seq<string>): (r: Option<string>)
    ensures r.Some? ==> r.value in families && MatchesAt(s, i, r.value)
  {
    if families == [] then None
    else if MatchesAt(s, i, families[0]) then Some(families[0])
    else FamilyAt(s, i, families[1..])
  }

  /** `(<family>)[._](\d+)(?:[._]|$)` at `i`: the family and the inner number. */
  function FamilyInnerAt(s: string, i: int, families: seq<string>): Option<(string, nat)>
  {
    if i < 0 || i > |s| then None
    else
      match FamilyAt(s, i, families)
      case None => None
      case Some(f) =>
        var p := i + |f| + 1;
        if !SepAt(s, i + |f|) then None
        else
          var e := DigitRunEnd(s, p);
          if e > p && EndOrSepAt(s, e) then Some((f, DigitsValue(s[p..e]))) else None
  }

  /** `(\d+)[._](<family>)[._](\d+)(?:[._]|$)` at `i`. */
  function BlockFamilyInnerAt(s: string, i: int, families: seq<string>): Option<Groups>
  {
    if i < 0 || i > |s| then None
    else
      var e := DigitRunEnd(s, i);
      if e > i && SepAt(s, e) then
        match FamilyInnerAt(s, e + 1, families)
        case None => None
        case Some((f, inner)) => Some(Groups(DigitsValue(s[i..e]), f, inner))
      else None
  }

  datatype Region = DownBlocks | MidBlock | UpBlocks

  /** The region pattern matches with its `unet` at `q`; its groups. */
  function RegionAt(s: string, q: int, region: Region): (r: Option<Groups>)
    ensures r.Some? ==> UnetAnchorAt(s, q)
  {
    if !UnetAnchorAt(s, q) then None
    else
      match region
      case DownBlocks =>
        if MatchesAt(s, q + 5, "down_blocks") && SepAt(s, q + 16)
        then BlockFamilyInnerAt(s, q + 17, ["resnets", "attentions", "downsamplers"]) else None
      case MidBlock =>
        if MatchesAt(s, q + 5, "mid_block") && SepAt(s, q + 14) then
          match FamilyInnerAt(s, q + 15, ["resnets", "attentions"])
          case None => None
          case Some((f, inner)) => Some(Groups(0, f, inner))
        else None
      case UpBlocks =>
        if MatchesAt(s, q + 5, "up_blocks") && SepAt(s, q + 14)
        then BlockFamilyInnerAt(s, q + 15, ["resnets", "attentions", "upsamplers"]) else None
  }

  /** `pattern.search(key)` for a region pattern: the leftmost match from `q` on. */
  function RegionSearch(s: string, q: nat, region: Region): (r: Option<Groups>)
    ensures r.Some? ==> exists p | q <= p <= |s| :: UnetAnchorAt(s, p)
    decreases |s| + 1 - q
  {
    if q > |s| then None
    else
      match RegionAt(s, q, region)
      case Some(g) => Some(g)
      case None => RegionSearch(s, q + 1, region)
  }

  /** The first stem of `stems` whose pattern matches. */
  function FirstStem(s: string, stems: seq<Stem>): (r: Option<Stem>)
    ensures r.Some? ==> r.value in stems && StemSearch(s, r.value)
  {
    if stems == [] then None
    else if StemSearch(s, stems[0]) then Some(stems[0])
    else FirstStem(s, stems[1..])
  }

  /** The pattern stage of `_match_block_index`: stems first, then down, mid and up blocks. */
  function MatchSlot(key: string): Option<Slot>
  {
    var s := Lower(key);
    match FirstStem(s, StemOrder)
    case Some(stem) => Some(StemSlot(stem))
    case None =>
      match RegionSearch(s, 0, DownBlocks)
      case Some(g) => Some(DownSlot(g.block, g.family, g.inner))
      case None =>
        match RegionSearch(s, 0, MidBlock)
        case Some(g) => Some(MidSlot(g.family, g.inner))
        case None =>
          match RegionSearch(s, 0, UpBlocks)
          case Some(g) => Some(UpSlot(g.block, g.family, g.inner))
          case None => None
  }

  /** `_match_block_index`: a block below 57, no block, or the error an index helper raises. */
  function MatchBlockIndex(key: string): (r: Result<Option<nat>, MapError>)
    ensures r.Ok? && r.value.Some? ==> r.value.value < Unet57BlockCount
    ensures MatchSlot(key).None? ==> r == Ok(None)
  {
    match MatchSlot(key)
    case None => Ok(None)
    case Some(slot) =>
      match SlotIndex(slot)
      case Ok(n) => Ok(Some(n))
      case Err(e) => Err(e)
  }

  /** `_is_unet_candidate_key` */
  predicate IsUnetCandidateKey(key: string)
  {
    var k := Lower(key);
    Contains(k, "unet") || Contains(k, "down_blocks") || Contains(k, "up_blocks") || Contains(k, "mid_block")
  }

  /** Every key the patterns recognise contains `unet`, so it is a candidate key. */
  lemma MatchedKeysAreCandidates(key: string)
    requires MatchSlot(key).Some?
    ensures IsUnetCandidateKey(key)
  {
    var s := Lower(key);
    var q: int;
    if FirstStem(s, StemOrder).Some? {
      var stem := FirstStem(s, StemOrder).value;
      q :| 0 <= q <= |s| && StemAt(s, q, stem);
    } else if RegionSearch(s, 0, DownBlocks).Some? {
      q :| 0 <= q <= |s| && UnetAnchorAt(s, q);
    } else if RegionSearch(s, 0, MidBlock).Some? {
      q :| 0 <= q <= |s| && UnetAnchorAt(s, q);
    } else {
      q :| 0 <= q <= |s| && UnetAnchorAt(s, q);
    }
    ContainsWitness(s, "unet", q);
  }

  // ---------------------------------------------------------------
  // Strength extraction
  // ---------------------------------------------------------------

  type Norm = r: real | r >= 0.0

  /** A tensor key with the norm of its tensor (`float(value.norm().item())`). */
  datatype Tensor = Tensor(key: string, norm: Norm)

  datatype ExtractError =
    | MappingFailed(error: MapError)
    | UnmappedKey(key: string)
    | NoUnetKeys
    | AllStrengthsZero

  /** The loop state after a prefix of the keys: stopped by an error, or buckets and the seen flag. */
  datatype Scan = Stopped(error: ExtractError) | Scanning(buckets: seq<real>, sawUnetKey: bool)

  /** What the loop makes of one key: skipped, a raised mapping error, no block, or a block index. */
  datatype KeyOutcome = NotCandidate | MapFailed(error: MapError) | NoBlock | Block(index: nat)

  /** The candidate test followed by `_match_block_index`. */
  function Classify(key: string): (r: KeyOutcome)
    ensures r.NotCandidate? <==> !IsUnetCandidateKey(key)
    ensures r.Block? ==> r.index < Unet57BlockCount
    ensures IsUnetCandidateKey(key) && MatchSlot(key).None? ==> r == NoBlock
  {
    if !IsUnetCandidateKey(key) then NotCandidate
    else
      match MatchBlockIndex(key)
      case Err(e) => MapFailed(e)
      case Ok(None) => NoBlock
      case Ok(Some(i)) => Block(i)
  }

  /** One step of the key loop, given what the key was classified as. */
  function StepOn(st: Scan, c: KeyOutcome, t: Tensor): Scan
  {
    match st
    case Stopped(_) => st
    case Scanning(buckets, saw) =>
      match c
      case NotCandidate => st
      case MapFailed(e) => Stopped(MappingFailed(e))
      case NoBlock => Stopped(UnmappedKey(t.key))
      case Block(i) =>
        if i < |buckets| then Scanning(buckets[i := buckets[i] + t.norm], true)
        else Scanning(buckets, true)
  }

  /** One step of the key loop. */
  function ScanStep(st: Scan, t: Tensor): Scan
  {
    StepOn(st, Classify(t.key), t)
  }

  /** The loop state after all of `tensors`, starting from 57 empty buckets. */
  function ScanAll(tensors: seq<Tensor>): (st: Scan)
    ensures st.Scanning? ==> |st.buckets| == Unet57BlockCount && AllNonNegative(st.buckets)
    decreases |tensors|
  {
    if tensors == [] then Scanning(Zeros(Unet57BlockCount), false)
    else ScanStep(ScanAll(tensors[..|tensors| - 1]), tensors[|tensors| - 1])
  }

  /** What `extract_unet_57_block_strengths` returns or raises for these tensors. */
  function Extraction(tensors: seq<Tensor>): Result<(seq<real>, seq<real>), ExtractError>
  {
    match ScanAll(tensors)
    case Stopped(e) => Err(e)
    case Scanning(raw, saw) =>
      if !saw then Err(NoUnetKeys)
      else if Max(raw) <= 0.0 then Err(AllStrengthsZero)
      else Ok((raw, DivideAll(raw, Max(raw))))
  }

  /** `extract_unet_57_block_strengths` over the file's tensors, in key order. */
  method ExtractUnet57BlockStrengths(tensors: seq<Tensor>) returns (r: Result<(seq<real>, seq<real>), ExtractError>)
    ensures r == Extraction(tensors)
  {
    var st := ScanKeys(tensors);
    if st.Stopped? {
      return Err(st.error);
    }
    if !st.sawUnetKey {
      return Err(NoUnetKeys);
    }
    var raw := st.buckets;
    var maxValue := Max(raw);
    if maxValue <= 0.0 {
      return Err(AllStrengthsZero);
    }
    r := Ok((raw, DivideAll(raw, maxValue)));
  }

  /** The key loop of `extract_unet_57_block_strengths`: the buckets and the seen flag, or the error it raised. */
  method ScanKeys(tensors: seq<Tensor>) returns (st: Scan)
    ensures st == ScanAll(tensors)
  {
    var buckets := Zeros(Unet57BlockCount);
    var saw := false;
    var i := 0;
    while i < |tensors|
      invariant 0 <= i <= |tensors|
      invariant ScanAll(tensors[..i]) == Scanning(buckets, saw)
    {
      var c := Classify(tensors[i].key);
      Advance(tensors, i, c);
      var next := ScanKey(buckets, saw, c, tensors[i]);
      if next.Stopped? {
        StoppedPersists(tensors, i + 1);
        assert tensors[..|tensors|] == tensors;
        return next;
      }
      buckets, saw := next.buckets, next.sawUnetKey;
      i := i + 1;
    }
    assert tensors[..i] == tensors;
    st := Scanning(buckets, saw);
  }

  /** One pass of the loop body, given what the key was classified as: skip it, add its norm to its block, or raise. */
  method ScanKey(buckets: seq<real>, saw: bool, c: KeyOutcome, t: Tensor) returns (next: Scan)
    requires c.Block? ==> c.index < |buckets|
    ensures next == StepOn(Scanning(buckets, saw), c, t)
  {
    match c {
      case NotCandidate =>
        next := Scanning(buckets, saw);
      case MapFailed(e) =>
        next := Stopped(MappingFailed(e));
      case NoBlock =>
        next := Stopped(UnmappedKey(t.key));
      case Block(idx) =>
        next := Scanning(buckets[idx := buckets[idx] + t.norm], true);
    }
  }

  /** One more key advances the loop state by what that key was classified as. */
  lemma Advance(tensors: seq<Tensor>, i: nat, c: KeyOutcome)
    requires i < |tensors| && c == Classify(tensors[i].key)
    ensures ScanAll(tensors[..i + 1]) == StepOn(ScanAll(tensors[..i]), c, tensors[i])
  {
    ScanPrefixStep(tensors, i);
  }

  lemma ScanPrefixStep(tensors: seq<Tensor>, i: nat)
    requires i < |tensors|
    ensures ScanAll(tensors[..i + 1]) == ScanStep(ScanAll(tensors[..i]), tensors[i])
  {
    assert tensors[..i + 1][..i] == tensors[..i];
  }

  /** Once the loop has raised, later keys change nothing. */
  lemma {:induction false} StoppedPersists(tensors: seq<Tensor>, n: nat)
    requires n <= |tensors| && ScanAll(tensors[..n]).Stopped?
    ensures ScanAll(tensors) == ScanAll(tensors[..n])
    decreases |tensors| - n
  {
    if n < |tensors| {
      assert tensors[..n + 1][..n] == tensors[..n];
      StoppedPersists(tensors, n + 1);
    } else {
      assert tensors[..n] == tensors;
    }
  }

  // ---------------------------------------------------------------
  // Properties of the extraction
  // ---------------------------------------------------------------

  /** A successful extraction gives 57 raw strengths and 57 weights in [0, 1] whose largest is 1. */
  lemma ExtractionNormalized(tensors: seq<Tensor>)
    requires Extraction(tensors).Ok?
    ensures |Extraction(tensors).value.0| == Unet57BlockCount
    ensures |Extraction(tensors).value.1| == Unet57BlockCount
    ensures AllNonNegative(Extraction(tensors).value.1)
    ensures forall i | 0 <= i < Unet57BlockCount :: Extraction(tensors).value.1[i] <= 1.0
    ensures 1.0 in Extraction(tensors).value.1
  {
    var raw := ScanAll(tensors).buckets;
    ScaledByMax(raw);
  }

  /** The candidate keys' norms, in order. */
  function CandidateNorms(tensors: seq<Tensor>): seq<real>
    decreases |tensors|
  {
    if tensors == [] then []
    else
      var last := tensors[|tensors| - 1];
      CandidateNorms(tensors[..|tensors| - 1]) + (if IsUnetCandidateKey(last.key) then [last.norm] else [])
  }

  /** Nothing is lost or double counted: the raw strengths add up to the candidate keys' norms. */
  lemma {:induction false} ScanConservesNorm(tensors: seq<Tensor>)
    requires ScanAll(tensors).Scanning?
    ensures Sum(ScanAll(tensors).buckets) == Sum(CandidateNorms(tensors))
    decreases |tensors|
  {
    if tensors == [] {
      SumZeros(Unet57BlockCount);
    } else {
      var prefix := tensors[..|tensors| - 1];
      var last := tensors[|tensors| - 1];
      var extra := if IsUnetCandidateKey(last.key) then [last.norm] else [];
      assert ScanAll(tensors) == ScanStep(ScanAll(prefix), last);
      assert CandidateNorms(tensors) == CandidateNorms(prefix) + extra;
      ScanConservesNorm(prefix);
      StepConservesNorm(ScanAll(prefix), last);
      SumConcat(CandidateNorms(prefix), extra);
      assert Sum(extra) == if IsUnetCandidateKey(last.key) then last.norm else 0.0 by {
        if extra != [] {
          assert extra[..0] == [];
        }
      }
    }
  }

  /** One step adds the key's norm to the buckets when the key is a candidate, and nothing otherwise. */
  lemma StepConservesNorm(st: Scan, t: Tensor)
    requires ScanStep(st, t).Scanning? && st.Scanning? && |st.buckets| == Unet57BlockCount
    ensures Sum(ScanStep(st, t).buckets) == Sum(st.buckets) + if IsUnetCandidateKey(t.key) then t.norm else 0.0
  {
    StepOnConservesNorm(st, Classify(t.key), t);
  }

  lemma StepOnConservesNorm(st: Scan, c: KeyOutcome, t: Tensor)
    requires StepOn(st, c, t).Scanning? && st.Scanning? && (c.Block? ==> c.index < |st.buckets|)
    ensures Sum(StepOn(st, c, t).buckets) == Sum(st.buckets) + if c.NotCandidate? then 0.0 else t.norm
  {
    if c.Block? {
      SumUpdate(st.buckets, c.index, t.norm);
    }
  }

  lemma ExtractionConservesNorm(tensors: seq<Tensor>)
    requires Extraction(tensors).Ok?
    ensures Sum(Extraction(tensors).value.0) == Sum(CandidateNorms(tensors))
  {
    ScanConservesNorm(tensors);
  }

  /** Adding `x` to one entry adds `x` to the sum. */
  lemma {:induction false} SumUpdate(s: seq<real>, i: nat, x: real)
    requires i < |s|
    ensures Sum(s[i := s[i] + x]) == Sum(s) + x
    decreases |s|
  {
    var t := s[i := s[i] + x];
    if i < |s| - 1 {
      assert t[..|t| - 1] == s[..|s| - 1][i := s[i] + x];
      SumUpdate(s[..|s| - 1], i, x);
    } else {
      assert t[..|t| - 1] == s[..|s| - 1];
    }
  }

  /** Unknown UNet-style keys fail fast: a candidate key that no pattern recognises stops the extraction. */
  lemma UnmappedCandidateFails(tensors: seq<Tensor>, k: nat)
    requires k < |tensors| && IsUnetCandidateKey(tensors[k].key) && MatchSlot(tensors[k].key).None?
    ensures Extraction(tensors).Err?
    ensures Extraction(tensors).error.MappingFailed? || Extraction(tensors).error.UnmappedKey?
  {
    assert tensors[..k + 1][..k] == tensors[..k];
    StoppedPersists(tensors, k + 1);
    KeysBeforeStop(tensors, k + 1);
  }

  /** A stopped scan stopped on a key error. */
  lemma {:induction false} KeysBeforeStop(tensors: seq<Tensor>, n: nat)
    requires n <= |tensors| && ScanAll(tensors[..n]).Stopped?
    ensures ScanAll(tensors[..n]).error.MappingFailed? || ScanAll(tensors[..n]).error.UnmappedKey?
    decreases n
  {
    var p := tensors[..n];
    assert p[..|p| - 1] == tensors[..n - 1];
    if ScanAll(tensors[..n - 1]).Stopped? {
      KeysBeforeStop(tensors, n - 1);
    }
  }

  /** Without a single candidate key the extraction raises "no UNet-style keys". */
  lemma {:induction false} NoCandidatesMeansNoUnetKeys(tensors: seq<Tensor>)
    requires forall k | 0 <= k < |tensors| :: !IsUnetCandidateKey(tensors[k].key)
    ensures ScanAll(tensors) == Scanning(Zeros(Unet57BlockCount), false)
    ensures Extraction(tensors) == Err(NoUnetKeys)
    decreases |tensors|
  {
    if tensors != [] {
      var p := tensors[..|tensors| - 1];
      assert forall k | 0 <= k < |p| :: p[k] == tensors[k];
      NoCandidatesMeansNoUnetKeys(p);
    }
  }
}
