/**
 * IdAssigner: stable LoRA ids of the form `BASE-CAT-NNN`. Rows that take
 * part (both codes set) are grouped by (base model code, category code) in
 * the order their keys first appear; within a group each row without an id
 * gets the smallest number, from a running candidate that starts at 1, that
 * no existing id of the group uses and no earlier row of this run took.
 * The database is a sequence of rows; the `UPDATE`s are returned in the
 * order they are issued.
 */
module IdAssigner {
  import opened Text

  datatype LoraRow = LoraRow(
    id: int,
    filename: string,
    baseModelCode: Option<string>,
    categoryCode: Option<string>,
    stableId: Option<string>)

  /** `UPDATE lora SET stable_id = newId WHERE id = rowId` */
  datatype Update = Update(rowId: int, newId: string)

  // ---------------------------------------------------------------
  // Id text
  // ---------------------------------------------------------------

  /** `generate_stable_id` */
  function GenerateStableId(baseCode: string, catCode: string, index: int): (r: string)
    ensures StartsWith(r, baseCode + "-" + catCode + "-")
    ensures |r| >= |baseCode| + |catCode| + 5
  {
    var p := baseCode + "-" + catCode + "-";
    assert (p + Format03d(index))[..|p|] == p;
    p + Format03d(index)
  }

  /** Distinct numbers give distinct ids under the same codes. */
  lemma GenerateStableIdInjective(baseCode: string, catCode: string, m: nat, n: nat)
    requires GenerateStableId(baseCode, catCode, m) == GenerateStableId(baseCode, catCode, n)
    ensures m == n
  {
    var p := baseCode + "-" + catCode + "-";
    assert Format03d(m) == GenerateStableId(baseCode, catCode, m)[|p|..];
    assert Format03d(n) == GenerateStableId(baseCode, catCode, n)[|p|..];
    Format03dInjective(m, n);
  }

  lemma Format03dInjective(m: nat, n: nat)
    requires Format03d(m) == Format03d(n)
    ensures m == n
  {
    if m <= 999 && n <= 999 {
      Format03dRoundTrip(m);
      Format03dRoundTrip(n);
    } else if m >= 1000 && n >= 1000 {
      Format03dWide(m);
      Format03dWide(n);
      NatToStringInjective(m, n);
    } else if m <= 999 {
      Format03dRoundTrip(m);
      Format03dWide(n);
    } else {
      Format03dRoundTrip(n);
      Format03dWide(m);
    }
  }

  predicate IsCodeChar(c: char)
  {
    'A' <= c <= 'Z' || '0' <= c <= '9'
  }

  /** A three-character code of upper-case letters and digits (`[A-Z0-9]{3}`). */
  predicate IsCode(s: string)
  {
    |s| == 3 && forall i | 0 <= i < 3 :: IsCodeChar(s[i])
  }

  /** `^[A-Z0-9]{3}-[A-Z0-9]{3}-[0-9]{3}$` on a stripped string (so `$` has no final newline to skip). */
  predicate MatchesSuffixPattern(s: string)
  {
    |s| == 11 && IsCode(s[..3]) && s[3] == '-' && IsCode(s[4..7]) && s[7] == '-' && AllDigits(s[8..])
  }

  /** `_extract_numeric_suffix` */
  function ExtractNumericSuffix(stableId: Option<string>, expectedPrefix: string): (r: Option<nat>)
    ensures r.Some? ==> Truthy(stableId)
    ensures r.Some? ==> MatchesSuffixPattern(Upper(Strip(stableId.value)))
    ensures r.Some? ==> Upper(Strip(stableId.value))[..7] == expectedPrefix
    ensures r.Some? ==> r.value <= 999
  {
    if !Truthy(stableId) then None
    else
      var s := Upper(Strip(stableId.value));
      if !MatchesSuffixPattern(s) then None
      else if s[..7] != expectedPrefix then None
      else
        ThreeDigitsBelow1000(s[8..]);
        Some(DigitsValue(s[8..]))
  }

  lemma ThreeDigitsBelow1000(s: string)
    requires |s| == 3 && AllDigits(s)
    ensures DigitsValue(s) <= 999
  {
    var a, b := s[..1], s[..2];
    assert b[..1] == a && a[..0] == [] && s[..2] == b;
    assert DigitsValue(a) <= 9;
    assert DigitsValue(b) <= 99;
  }

  lemma CodeIsUpperCase(s: string)
    requires IsCode(s)
    ensures IsUpperCase(s)
  {
  }

  /** For two codes of upper-case letters and digits and 0 <= i <= 999, the suffix read back from a generated id is i. */
  lemma ExtractGeneratedSuffix(baseCode: string, catCode: string, i: nat)
    requires IsCode(baseCode) && IsCode(catCode) && i <= 999
    ensures ExtractNumericSuffix(Some(GenerateStableId(baseCode, catCode, i)), Upper(baseCode + "-" + catCode)) == Some(i)
  {
    var id := GenerateStableId(baseCode, catCode, i);
    var f := Format03d(i);
    Format03dRoundTrip(i);
    GeneratedIdShape(baseCode, catCode, f);
    StripNoSpace(id);
    UpperOfUpperCase(id);
    var prefix := baseCode + "-" + catCode;
    assert id[..7] == prefix;
    assert IsUpperCase(prefix) by {
      forall k | 0 <= k < 7 ensures !('a' <= prefix[k] <= 'z') {
        assert prefix[k] == id[k];
      }
    }
    UpperOfUpperCase(prefix);
  }

  /** The text of a generated id with a three-digit suffix: upper case, no outer whitespace, and its three fields. */
  lemma GeneratedIdShape(baseCode: string, catCode: string, f: string)
    requires IsCode(baseCode) && IsCode(catCode) && |f| == 3 && AllDigits(f)
    ensures var id := baseCode + "-" + catCode + "-" + f;
      |id| == 11 && id[..3] == baseCode && id[4..7] == catCode && id[8..] == f
      && id[3] == '-' && id[7] == '-'
      && IsUpperCase(id) && !IsSpace(id[0]) && !IsSpace(id[10])
  {
    var id := baseCode + "-" + catCode + "-" + f;
    assert id[..3] == baseCode && id[4..7] == catCode && id[8..] == f;
    forall k | 0 <= k < 11 ensures !('a' <= id[k] <= 'z') {
      if k < 3 {
        assert id[k] == baseCode[k];
      } else if 4 <= k < 7 {
        assert id[k] == catCode[k - 4];
      } else if k >= 8 {
        assert id[k] == f[k - 8];
      }
    }
    assert id[0] == baseCode[0];
    assert id[10] == f[2];
  }

  /** From 1000 on a generated id has four or more digits and no longer reads back as a used number. */
  lemma WideSuffixNotRecognised(baseCode: string, catCode: string, i: nat, expectedPrefix: string)
    requires IsCode(baseCode) && IsCode(catCode) && i >= 1000
    ensures ExtractNumericSuffix(Some(GenerateStableId(baseCode, catCode, i)), expectedPrefix) == None
  {
    var id := GenerateStableId(baseCode, catCode, i);
    Format03dWide(i);
    var f := Format03d(i);
    assert id == baseCode + "-" + catCode + "-" + f;
    assert !IsSpace(id[0]) && !IsSpace(id[|id| - 1]) by {
      assert id[0] == baseCode[0];
      assert id[|id| - 1] == f[|f| - 1];
    }
    StripNoSpace(id);
    UpperIsUpperCase(id);
  }

  // ---------------------------------------------------------------
  // The numbering of one group
  // ---------------------------------------------------------------

  /** The smallest number at or after `c` that is not in `used` (the `while next_candidate in used_numbers` loop). */
  function NextFree(used: set<nat>, c: nat): (n: nat)
    ensures n >= c && n !in used
    ensures forall m | c <= m < n :: m in used
    decreases |used|
  {
    if c in used then
      var n := NextFree(used - {c}, c + 1);
      RemovedStaysUsed(used, c, n);
      n
    else c
  }

  lemma RemovedStaysUsed(used: set<nat>, c: nat, n: nat)
    requires c in used && forall m | c + 1 <= m < n :: m in used - {c}
    ensures forall m | c <= m < n :: m in used
  {
    forall m | c <= m < n ensures m in used {
      if m != c {
        assert m in used - {c};
      }
    }
  }

  /** The characterisation of `NextFree` pins it down. */
  lemma NextFreeUnique(used: set<nat>, c: nat, n: nat)
    requires n >= c && n !in used && forall m | c <= m < n :: m in used
    ensures NextFree(used, c) == n
  {
  }

  lemma NextFreeSkip(used: set<nat>, c: nat)
    requires c in used
    ensures NextFree(used, c) == NextFree(used, c + 1)
  {
    NextFreeUnique(used, c + 1, NextFree(used, c));
  }

  /** The number each row gets, in row order: `None` for a row that keeps its id. */
  function Numbering(items: seq<LoraRow>, used: set<nat>, candidate: nat): (r: seq<Option<nat>>)
    ensures |r| == |items|
    decreases |items|
  {
    if items == [] then []
    else if Truthy(items[0].stableId) then [None] + Numbering(items[1..], used, candidate)
    else
      var n := NextFree(used, candidate);
      [Some(n)] + Numbering(items[1..], used + {n}, n + 1)
  }

  /** Rows that already have a stable id are never reassigned; every other row gets a number. */
  lemma {:induction false} NumberingSkipsExisting(items: seq<LoraRow>, used: set<nat>, candidate: nat, j: nat)
    requires j < |items|
    ensures Numbering(items, used, candidate)[j].None? <==> Truthy(items[j].stableId)
    decreases |items|
  {
    if j > 0 {
      var n := NextFree(used, candidate);
      if Truthy(items[0].stableId) {
        NumberingSkipsExisting(items[1..], used, candidate, j - 1);
      } else {
        NumberingSkipsExisting(items[1..], used + {n}, n + 1, j - 1);
      }
    }
  }

  /** Every number given out is at least the starting candidate and not already used. */
  lemma {:induction false} NumberingFresh(items: seq<LoraRow>, used: set<nat>, candidate: nat, j: nat)
    requires j < |items| && Numbering(items, used, candidate)[j].Some?
    ensures Numbering(items, used, candidate)[j].value >= candidate
    ensures Numbering(items, used, candidate)[j].value !in used
    decreases |items|
  {
    if j > 0 {
      var n := NextFree(used, candidate);
      if Truthy(items[0].stableId) {
        NumberingFresh(items[1..], used, candidate, j - 1);
      } else {
        NumberingFresh(items[1..], used + {n}, n + 1, j - 1);
      }
    }
  }

  /** Numbers strictly increase in row order, so no two rows of a group get the same number. */
  lemma {:induction false} NumberingIncreasing(items: seq<LoraRow>, used: set<nat>, candidate: nat, j: nat, k: nat)
    requires j < k < |items|
    requires Numbering(items, used, candidate)[j].Some? && Numbering(items, used, candidate)[k].Some?
    ensures Numbering(items, used, candidate)[j].value < Numbering(items, used, candidate)[k].value
    decreases |items|
  {
    var n := NextFree(used, candidate);
    if Truthy(items[0].stableId) {
      NumberingIncreasing(items[1..], used, candidate, j - 1, k - 1);
    } else if j == 0 {
      NumberingFresh(items[1..], used + {n}, n + 1, k - 1);
    } else {
      NumberingIncreasing(items[1..], used + {n}, n + 1, j - 1, k - 1);
    }
  }

  /** The `UPDATE`s for a numbering, in row order. */
  function UpdatesOf(items: seq<LoraRow>, numbers: seq<Option<nat>>, baseCode: string, catCode: string): seq<Update>
    requires |numbers| == |items|
    decreases |items|
  {
    if items == [] then []
    else
      (if numbers[0].Some? then [Update(items[0].id, GenerateStableId(baseCode, catCode, numbers[0].value))] else [])
      + UpdatesOf(items[1..], numbers[1..], baseCode, catCode)
  }

  /** The number set of existing ids in the group that match `PREFIX-###`. */
  function UsedNumbers(items: seq<LoraRow>, prefix: string): (r: set<nat>)
    ensures forall n | n in r :: n <= 999
    decreases |items|
  {
    if items == [] then {}
    else
      var last := ExtractNumericSuffix(items[|items| - 1].stableId, prefix);
      UsedNumbers(items[..|items| - 1], prefix) + (if last.Some? then {last.value} else {})
  }

  /** A number is used exactly when some row's existing id reads back as it. */
  lemma UsedNumbersExactly(items: seq<LoraRow>, prefix: string, n: nat)
    ensures n in UsedNumbers(items, prefix) <==>
      exists j | 0 <= j < |items| :: ExtractNumericSuffix(items[j].stableId, prefix) == Some(n)
  {
    if n in UsedNumbers(items, prefix) {
      UsedNumbersSound(items, prefix, n);
    }
    if exists j | 0 <= j < |items| :: ExtractNumericSuffix(items[j].stableId, prefix) == Some(n) {
      var j :| 0 <= j < |items| && ExtractNumericSuffix(items[j].stableId, prefix) == Some(n);
      UsedNumbersComplete(items, prefix, j);
    }
  }

  lemma {:induction false} UsedNumbersSound(items: seq<LoraRow>, prefix: string, n: nat)
    requires n in UsedNumbers(items, prefix)
    ensures exists j | 0 <= j < |items| :: ExtractNumericSuffix(items[j].stableId, prefix) == Some(n)
    decreases |items|
  {
    var k := |items| - 1;
    var p := items[..k];
    var last := ExtractNumericSuffix(items[k].stableId, prefix);
    assert UsedNumbers(items, prefix) == UsedNumbers(p, prefix) + (if last.Some? then {last.value} else {});
    if last != Some(n) {
      assert n in UsedNumbers(p, prefix);
      UsedNumbersSound(p, prefix, n);
      var j :| 0 <= j < |p| && ExtractNumericSuffix(p[j].stableId, prefix) == Some(n);
      assert items[j] == p[j];
    }
  }

  lemma {:induction false} UsedNumbersComplete(items: seq<LoraRow>, prefix: string, j: nat)
    requires j < |items| && ExtractNumericSuffix(items[j].stableId, prefix).Some?
    ensures ExtractNumericSuffix(items[j].stableId, prefix).value in UsedNumbers(items, prefix)
    decreases |items|
  {
    var p := items[..|items| - 1];
    if j < |items| - 1 {
      assert p[j] == items[j];
      UsedNumbersComplete(p, prefix, j);
    }
  }

  /** The group prefix `f"{base_code}-{cat_code}".upper()`. */
  function GroupPrefix(baseCode: string, catCode: string): string
  {
    Upper(baseCode + "-" + catCode)
  }

  /** The numbering of a group, starting from candidate 1. */
  function GroupNumbering(baseCode: string, catCode: string, items: seq<LoraRow>): (r: seq<Option<nat>>)
    ensures |r| == |items|
  {
    Numbering(items, UsedNumbers(items, GroupPrefix(baseCode, catCode)), 1)
  }

  /** The `UPDATE`s `assign_ids` issues for one group. */
  function GroupUpdates(baseCode: string, catCode: string, items: seq<LoraRow>): seq<Update>
  {
    UpdatesOf(items, GroupNumbering(baseCode, catCode, items), baseCode, catCode)
  }

  function CountExisting(items: seq<LoraRow>): (r: nat)
    ensures r <= |items|
    decreases |items|
  {
    if items == [] then 0
    else (if Truthy(items[0].stableId) then 1 else 0) + CountExisting(items[1..])
  }

  /** How the head row contributes to the updates and the count of kept ids. */
  lemma UpdatesStep(items: seq<LoraRow>, used: set<nat>, candidate: nat, baseCode: string, catCode: string)
    requires items != []
    ensures Truthy(items[0].stableId) ==>
      UpdatesOf(items, Numbering(items, used, candidate), baseCode, catCode)
        == UpdatesOf(items[1..], Numbering(items[1..], used, candidate), baseCode, catCode)
      && CountExisting(items) == 1 + CountExisting(items[1..])
    ensures !Truthy(items[0].stableId) ==>
      var n := NextFree(used, candidate);
      UpdatesOf(items, Numbering(items, used, candidate), baseCode, catCode)
        == [Update(items[0].id, GenerateStableId(baseCode, catCode, n))]
           + UpdatesOf(items[1..], Numbering(items[1..], used + {n}, n + 1), baseCode, catCode)
      && CountExisting(items) == CountExisting(items[1..])
  {
    var numbers := Numbering(items, used, candidate);
    if Truthy(items[0].stableId) {
      assert numbers[1..] == Numbering(items[1..], used, candidate);
    } else {
      var n := NextFree(used, candidate);
      assert numbers[1..] == Numbering(items[1..], used + {n}, n + 1);
    }
  }

  /** A row that has an id is skipped and counted. */
  lemma SkipStep(items: seq<LoraRow>, j: nat, used: set<nat>, candidate: nat, baseCode: string, catCode: string)
    requires j < |items| && Truthy(items[j].stableId)
    ensures UpdatesOf(items[j..], Numbering(items[j..], used, candidate), baseCode, catCode)
              == UpdatesOf(items[j + 1..], Numbering(items[j + 1..], used, candidate), baseCode, catCode)
    ensures CountExisting(items[j..]) == 1 + CountExisting(items[j + 1..])
  {
    var rest := items[j..];
    assert rest[0] == items[j] && rest[1..] == items[j + 1..];
    UpdatesStep(rest, used, candidate, baseCode, catCode);
  }

  /** A row without an id gets the next free number. */
  lemma AssignStep(items: seq<LoraRow>, j: nat, used: set<nat>, candidate: nat, baseCode: string, catCode: string)
    requires j < |items| && !Truthy(items[j].stableId)
    ensures var n := NextFree(used, candidate);
            UpdatesOf(items[j..], Numbering(items[j..], used, candidate), baseCode, catCode)
              == [Update(items[j].id, GenerateStableId(baseCode, catCode, n))]
                 + UpdatesOf(items[j + 1..], Numbering(items[j + 1..], used + {n}, n + 1), baseCode, catCode)
    ensures CountExisting(items[j..]) == CountExisting(items[j + 1..])
  {
    var rest := items[j..];
    assert rest[0] == items[j] && rest[1..] == items[j + 1..];
    UpdatesStep(rest, used, candidate, baseCode, catCode);
  }

  /** The `used_numbers` loop of one group. */
  method CollectUsedNumbers(items: seq<LoraRow>, prefix: string) returns (used: set<nat>)
    ensures used == UsedNumbers(items, prefix)
  {
    used := {};
    var j := 0;
    while j < |items|
      invariant 0 <= j <= |items|
      invariant used == UsedNumbers(items[..j], prefix)
    {
      assert items[..j + 1][..j] == items[..j];
      var n := ExtractNumericSuffix(items[j].stableId, prefix);
      if n.Some? {
        used := used + {n.value};
      }
      j := j + 1;
    }
    assert items[..j] == items;
  }

  /** `while next_candidate in used_numbers: next_candidate += 1` */
  method SkipUsed(used: set<nat>, candidate: nat) returns (next: nat)
    ensures next == NextFree(used, candidate)
  {
    next := candidate;
    while next in used
      invariant NextFree(used, next) == NextFree(used, candidate)
      decreases NextFree(used, candidate) - next
    {
      NextFreeSkip(used, next);
      next := next + 1;
    }
  }

  /** The body of the group loop of `assign_ids` for one group. */
  method AssignGroup(baseCode: string, catCode: string, items: seq<LoraRow>)
    returns (updates: seq<Update>, assignedCount: nat, skippedCount: nat)
    ensures updates == GroupUpdates(baseCode, catCode, items)
    ensures assignedCount == |updates|
    ensures skippedCount == CountExisting(items)
    ensures assignedCount + skippedCount == |items|
  {
    var used := CollectUsedNumbers(items, GroupPrefix(baseCode, catCode));
    ghost var numbers := GroupNumbering(baseCode, catCode, items);
    updates, assignedCount, skippedCount := [], 0, 0;
    var nextCandidate: nat := 1;
    var j := 0;
    while j < |items|
      invariant 0 <= j <= |items|
      invariant updates + UpdatesOf(items[j..], Numbering(items[j..], used, nextCandidate), baseCode, catCode)
        == UpdatesOf(items, numbers, baseCode, catCode)
      invariant skippedCount + CountExisting(items[j..]) == CountExisting(items)
      invariant assignedCount == |updates| && assignedCount + skippedCount == j
    {
      var item := items[j];
      if Truthy(item.stableId) {
        SkipStep(items, j, used, nextCandidate, baseCode, catCode);
        skippedCount := skippedCount + 1;
      } else {
        AssignStep(items, j, used, nextCandidate, baseCode, catCode);
        ghost var before := updates;
        nextCandidate := SkipUsed(used, nextCandidate);
        var newId := GenerateStableId(baseCode, catCode, nextCandidate);
        updates := updates + [Update(item.id, newId)];
        used := used + {nextCandidate};
        nextCandidate := nextCandidate + 1;
        assignedCount := assignedCount + 1;
        ghost var tail := UpdatesOf(items[j + 1..], Numbering(items[j + 1..], used, nextCandidate), baseCode, catCode);
        assert updates + tail == before + ([Update(item.id, newId)] + tail);
      }
      j := j + 1;
    }
    assert items[j..] == [];
  }

  // ---------------------------------------------------------------
  // Grouping the rows
  // ---------------------------------------------------------------

  datatype GroupKey = GroupKey(baseCode: string, catCode: string)

  /** `WHERE base_model_code IS NOT NULL AND category_code IS NOT NULL` */
  predicate TakesPart(r: LoraRow)
  {
    r.baseModelCode.Some? && r.categoryCode.Some?
  }

  function KeyOf(r: LoraRow): GroupKey
    requires TakesPart(r)
  {
    GroupKey(r.baseModelCode.value, r.categoryCode.value)
  }

  /** The group keys in the order they first appear (the insertion order of the `groups` dict). */
  function GroupKeys(rows: seq<LoraRow>): (keys: seq<GroupKey>)
    ensures forall a, b | 0 <= a < b < |keys| :: keys[a] != keys[b]
    decreases |rows|
  {
    if rows == [] then []
    else
      var keys := GroupKeys(rows[..|rows| - 1]);
      var last := rows[|rows| - 1];
      if TakesPart(last) && KeyOf(last) !in keys then keys + [KeyOf(last)] else keys
  }

  /** The rows of one group, in row order. */
  function GroupItems(rows: seq<LoraRow>, key: GroupKey): (items: seq<LoraRow>)
    ensures forall r | r in items :: TakesPart(r) && KeyOf(r) == key
    decreases |rows|
  {
    if rows == [] then []
    else
      var last := rows[|rows| - 1];
      GroupItems(rows[..|rows| - 1], key) + (if TakesPart(last) && KeyOf(last) == key then [last] else [])
  }

  /** The participating rows, in row order. */
  function Participating(rows: seq<LoraRow>): seq<LoraRow>
    decreases |rows|
  {
    if rows == [] then []
    else
      var last := rows[|rows| - 1];
      Participating(rows[..|rows| - 1]) + (if TakesPart(last) then [last] else [])
  }

  /** A key that has not appeared yet has no rows. */
  lemma {:induction false} AbsentKeyHasNoItems(rows: seq<LoraRow>, key: GroupKey)
    requires key !in GroupKeys(rows)
    ensures GroupItems(rows, key) == []
    decreases |rows|
  {
    if rows != [] {
      AbsentKeyHasNoItems(rows[..|rows| - 1], key);
    }
  }

  /** Every participating row lies in the group of its key, and that key is one of the groups. */
  lemma {:induction false} RowInItsGroup(rows: seq<LoraRow>, j: nat)
    requires j < |rows| && TakesPart(rows[j])
    ensures KeyOf(rows[j]) in GroupKeys(rows)
    ensures rows[j] in GroupItems(rows, KeyOf(rows[j]))
    decreases |rows|
  {
    if j < |rows| - 1 {
      var p := rows[..|rows| - 1];
      assert p[j] == rows[j];
      RowInItsGroup(p, j);
    }
  }

  /** The total size of the groups of `keys`. */
  function SizeOver(rows: seq<LoraRow>, keys: seq<GroupKey>): nat
    decreases |keys|
  {
    if keys == [] then 0 else SizeOver(rows, keys[..|keys| - 1]) + |GroupItems(rows, keys[|keys| - 1])|
  }

  /** One more row adds one to the size of its own group's key and nothing to the others. */
  lemma {:induction false} SizeOverAppend(rows: seq<LoraRow>, r: LoraRow, keys: seq<GroupKey>)
    requires forall a, b | 0 <= a < b < |keys| :: keys[a] != keys[b]
    ensures SizeOver(rows + [r], keys) ==
      SizeOver(rows, keys) + if TakesPart(r) && KeyOf(r) in keys then 1 else 0
    decreases |keys|
  {
    var rows' := rows + [r];
    assert rows'[..|rows'| - 1] == rows;
    if keys != [] {
      var p := keys[..|keys| - 1];
      SizeOverAppend(rows, r, p);
      assert TakesPart(r) && KeyOf(r) in keys ==> KeyOf(r) in p || KeyOf(r) == keys[|keys| - 1];
      if TakesPart(r) && KeyOf(r) == keys[|keys| - 1] {
        assert KeyOf(r) !in p;
      }
    }
  }

  /** The groups partition the participating rows: their sizes add up to the number of such rows. */
  lemma {:induction false} GroupsPartitionRows(rows: seq<LoraRow>)
    ensures SizeOver(rows, GroupKeys(rows)) == |Participating(rows)|
    decreases |rows|
  {
    if rows != [] {
      var p := rows[..|rows| - 1];
      var r := rows[|rows| - 1];
      assert rows == p + [r];
      GroupsPartitionRows(p);
      PartitionStep(p, r);
    }
  }

  /** Appending one row adds one to the group sizes exactly when the row takes part. */
  lemma PartitionStep(p: seq<LoraRow>, r: LoraRow)
    ensures SizeOver(p + [r], GroupKeys(p + [r])) == SizeOver(p, GroupKeys(p)) + if TakesPart(r) then 1 else 0
    ensures |Participating(p + [r])| == |Participating(p)| + if TakesPart(r) then 1 else 0
  {
    var rows := p + [r];
    assert rows[..|rows| - 1] == p;
    var keys := GroupKeys(p);
    SizeOverAppend(p, r, keys);
    if TakesPart(r) && KeyOf(r) !in keys {
      AbsentKeyHasNoItems(p, KeyOf(r));
      var keys' := keys + [KeyOf(r)];
      assert keys'[..|keys'| - 1] == keys;
    }
  }

  /** The `UPDATE`s for the groups of `keys`, group by group. */
  function UpdatesOver(rows: seq<LoraRow>, keys: seq<GroupKey>): seq<Update>
    decreases |keys|
  {
    if keys == [] then []
    else
      var k := keys[|keys| - 1];
      UpdatesOver(rows, keys[..|keys| - 1]) + GroupUpdates(k.baseCode, k.catCode, GroupItems(rows, k))
  }

  /** `groups` holds, for every key of `keys`, the rows of that group. */
  predicate GroupsAgree(keys: seq<GroupKey>, groups: map<GroupKey, seq<LoraRow>>, rows: seq<LoraRow>)
  {
    forall k | k in keys :: k in groups && groups[k] == GroupItems(rows, k)
  }

  /** A row that takes part is appended to its group, which is created when its key is new. */
  lemma AppendToGroup(rows: seq<LoraRow>, i: nat, keys: seq<GroupKey>, groups: map<GroupKey, seq<LoraRow>>)
    requires i < |rows| && TakesPart(rows[i])
    requires keys == GroupKeys(rows[..i]) && GroupsAgree(keys, groups, rows[..i])
    ensures var key := KeyOf(rows[i]);
            var keys' := if key in keys then keys else keys + [key];
            var current := if key in keys then groups[key] else [];
            keys' == GroupKeys(rows[..i + 1]) && GroupsAgree(keys', groups[key := current + [rows[i]]], rows[..i + 1])
  {
    var p := rows[..i + 1];
    assert p[..i] == rows[..i] && p[i] == rows[i];
    var key := KeyOf(rows[i]);
    if key !in keys {
      AbsentKeyHasNoItems(rows[..i], key);
    }
  }

  /** A row that does not take part changes neither the keys nor the groups. */
  lemma SkipNonParticipating(rows: seq<LoraRow>, i: nat, keys: seq<GroupKey>, groups: map<GroupKey, seq<LoraRow>>)
    requires i < |rows| && !TakesPart(rows[i])
    requires keys == GroupKeys(rows[..i]) && GroupsAgree(keys, groups, rows[..i])
    ensures keys == GroupKeys(rows[..i + 1]) && GroupsAgree(keys, groups, rows[..i + 1])
  {
    var p := rows[..i + 1];
    assert p[..i] == rows[..i] && p[i] == rows[i];
  }

  /** The `groups.setdefault(key, []).append(row)` loop, with the keys in insertion order. */
  method GroupRows(rows: seq<LoraRow>) returns (keys: seq<GroupKey>, groups: map<GroupKey, seq<LoraRow>>)
    ensures keys == GroupKeys(rows)
    ensures forall k | k in keys :: k in groups && groups[k] == GroupItems(rows, k)
  {
    keys, groups := [], map[];
    var i := 0;
    while i < |rows|
      invariant 0 <= i <= |rows|
      invariant keys == GroupKeys(rows[..i])
      invariant GroupsAgree(keys, groups, rows[..i])
    {
      var row := rows[i];
      if TakesPart(row) {
        AppendToGroup(rows, i, keys, groups);
        var key := KeyOf(row);
        ghost var current := if key in keys then groups[key] else [];
        if key !in keys {
          keys := keys + [key];
          groups := groups[key := []];
        }
        groups := groups[key := groups[key] + [row]];
        assert groups[key] == current + [row];
      } else {
        SkipNonParticipating(rows, i, keys, groups);
      }
      i := i + 1;
    }
    assert rows[..i] == rows;
  }

  /** `assign_ids` over the table's rows in query order: the `UPDATE`s issued and the two totals. */
  method AssignIds(rows: seq<LoraRow>) returns (updates: seq<Update>, totalAssigned: nat, totalSkipped: nat)
    ensures updates == UpdatesOver(rows, GroupKeys(rows))
    ensures totalAssigned == |updates|
    ensures totalAssigned + totalSkipped == |Participating(rows)|
  {
    var keys, groups := GroupRows(rows);
    updates, totalAssigned, totalSkipped := [], 0, 0;
    var g := 0;
    while g < |keys|
      invariant 0 <= g <= |keys|
      invariant updates == UpdatesOver(rows, keys[..g])
      invariant totalAssigned == |updates|
      invariant totalAssigned + totalSkipped == SizeOver(rows, keys[..g])
    {
      var key := keys[g];
      assert keys[..g + 1][..g] == keys[..g];
      var groupUpdates, assignedCount, skippedCount := AssignGroup(key.baseCode, key.catCode, groups[key]);
      updates := updates + groupUpdates;
      totalAssigned := totalAssigned + assignedCount;
      totalSkipped := totalSkipped + skippedCount;
      g := g + 1;
    }
    assert keys[..g] == keys;
    GroupsPartitionRows(rows);
  }
}
