/**
 * EnergyOverlap: the role-budgeted, overlap-damped strength allocator.
 * Each LoRA gets an energy vector (|block weight| * |strength|), a
 * normalised copy of it, and a same-length dot product with every other
 * LoRA. Strengths are first shared out inside each role, up to that
 * role's budget, and then damped when two LoRAs of one role overlap too
 * much. Floating point is modelled by exact reals.
 */
module EnergyOverlap {
  import opened Text
  import opened Numeric

  // ---------------------------------------------------------------
  // Roles
  // ---------------------------------------------------------------

  /** The budgeted roles (`ROLE_HIERARCHY`), as values; `RoleName` gives each one's text. */
  datatype Role = Character | Style | Clothing | Environment | Utility | Other

  function RoleName(r: Role): string
  {
    match r
    case Character => "character"
    case Style => "style"
    case Clothing => "clothing"
    case Environment => "environment"
    case Utility => "utility"
    case Other => "other"
  }

  const RoleHierarchy: seq<Role> := [Character, Style, Clothing, Environment, Utility, Other]

  /** `ROLE_BUDGETS`: the fixed share of the total requested strength each role may use. */
  function RoleBudget(r: Role): real
  {
    match r
    case Character => 0.35
    case Style => 0.25
    case Clothing => 0.15
    case Environment => 0.10
    case Utility => 0.08
    case Other => 0.07
  }

  /** The budgeted role with this name, if any (`name in ROLE_BUDGETS`). */
  function RoleNamed(name: string): (r: Option<Role>)
    ensures r.Some? ==> RoleName(r.value) == name
  {
    if name == "character" then Some(Character)
    else if name == "style" then Some(Style)
    else if name == "clothing" then Some(Clothing)
    else if name == "environment" then Some(Environment)
    else if name == "utility" then Some(Utility)
    else if name == "other" then Some(Other)
    else None
  }

  const RoleCanonicalMap: map<string, string> := map["pose" := "utility", "action" := "utility"]

  const OverlapThreshold: real := 0.85

  const UnequalLengthError: string := "Normalized energy vectors must have equal length."

  /** The hierarchy lists every role once, every budget is positive, and the budgets add up to one. */
  lemma HierarchyIsComplete()
    ensures forall role: Role :: role in RoleHierarchy
    ensures forall i, j | 0 <= i < j < |RoleHierarchy| :: RoleHierarchy[i] != RoleHierarchy[j]
    ensures forall role: Role :: RoleBudget(role) > 0.0
    ensures RoleBudget(Character) + RoleBudget(Style) + RoleBudget(Clothing)
            + RoleBudget(Environment) + RoleBudget(Utility) + RoleBudget(Other) == 1.0
  {
    forall role: Role ensures role in RoleHierarchy {
      match role
      case Character => assert RoleHierarchy[0] == role;
      case Style => assert RoleHierarchy[1] == role;
      case Clothing => assert RoleHierarchy[2] == role;
      case Environment => assert RoleHierarchy[3] == role;
      case Utility => assert RoleHierarchy[4] == role;
      case Other => assert RoleHierarchy[5] == role;
    }
  }

  lemma RoleNameRoundTrip(role: Role)
    ensures RoleNamed(RoleName(role)) == Some(role)
  {
  }

  /** `canonicalize_role`: lower-cased, stripped, pose/action folded into utility, unknown roles into other. */
  function CanonicalizeRole(role: string): (r: string)
    ensures RoleNamed(r).Some?
  {
    var raw := Lower(Strip(role));
    var fallback := RoleName(Other);
    RoleNameRoundTrip(Other);
    if raw == "" then fallback
    else
      var mapped := if raw in RoleCanonicalMap then RoleCanonicalMap[raw] else raw;
      if RoleNamed(mapped).Some? then mapped else fallback
  }

  lemma AliasesAreNotRoles()
    ensures forall alias | alias in RoleCanonicalMap :: RoleNamed(alias).None?
    ensures forall alias | alias in RoleCanonicalMap :: RoleCanonicalMap[alias] == RoleName(Utility)
  {
  }

  /** Blank roles become "other". */
  lemma BlankRoleIsOther(role: string)
    requires Strip(role) == ""
    ensures CanonicalizeRole(role) == RoleName(Other)
  {
    assert Lower(Strip(role)) == "";
  }

  /** Pose and action become "utility". */
  lemma AliasRoleIsUtility(role: string)
    requires Lower(Strip(role)) in RoleCanonicalMap
    ensures CanonicalizeRole(role) == RoleName(Utility)
  {
    AliasesAreNotRoles();
    RoleNameRoundTrip(Utility);
  }

  /** A budgeted role keeps its stripped, lower-cased name. */
  lemma BudgetedRoleIsKept(role: string)
    requires RoleNamed(Lower(Strip(role))).Some?
    ensures CanonicalizeRole(role) == Lower(Strip(role))
  {
    AliasesAreNotRoles();
  }

  /** Anything that is neither a budgeted role nor an alias becomes "other". */
  lemma UnknownRoleIsOther(role: string)
    requires RoleNamed(Lower(Strip(role))).None? && Lower(Strip(role)) !in RoleCanonicalMap
    ensures CanonicalizeRole(role) == RoleName(Other)
  {
  }

  /** A lower-case name with no surrounding whitespace is its own stripped, lower-cased form. */
  lemma CanonicalForm(role: string)
    requires role != [] && !IsSpace(role[0]) && !IsSpace(role[|role| - 1]) && IsLowerCase(role)
    ensures Lower(Strip(role)) == role
  {
    StripNoSpace(role);
    LowerOfLowerCase(role);
  }

  /** A budgeted role's name is already in canonical form. */
  lemma BudgetRoleIsCanonical(role: Role)
    ensures Lower(Strip(RoleName(role))) == RoleName(role)
  {
    CanonicalForm(RoleName(role));
  }

  lemma CanonicalizeRoleIdempotent(role: string)
    ensures CanonicalizeRole(CanonicalizeRole(role)) == CanonicalizeRole(role)
  {
    var c := CanonicalizeRole(role);
    BudgetRoleIsCanonical(RoleNamed(c).value);
    BudgetedRoleIsKept(c);
  }

  // ---------------------------------------------------------------
  // Energy metrics
  // ---------------------------------------------------------------

  datatype EnergyInput = EnergyInput(stableId: string, role: string, blockWeights: seq<real>, rawStrengthFactor: real)

  datatype EnergyMetrics = EnergyMetrics(
    stableId: string,
    role: string,
    rawStrengthFactor: real,
    energyBlocks: seq<real>,
    totalEnergy: real,
    normalizedEnergyVector: seq<real>)

  /** `[abs(w) * abs(s) for w in block_weights]` */
  function EnergyBlocks(weights: seq<real>, s: real): (e: seq<real>)
    ensures |e| == |weights| && AllNonNegative(e)
    ensures forall j | 0 <= j < |e| :: e[j] == Abs(weights[j]) * Abs(s)
  {
    seq(|weights|, j requires 0 <= j < |weights| => Abs(weights[j]) * Abs(s))
  }

  /** Each entry divided by the total, or all zeros when the total is zero. */
  function NormalizeEnergy(e: seq<real>): (v: seq<real>)
    requires AllNonNegative(e)
    ensures |v| == |e| && AllNonNegative(v)
    ensures forall j | 0 <= j < |v| :: v[j] <= 1.0
    ensures Sum(e) == 0.0 ==> forall j | 0 <= j < |v| :: v[j] == 0.0
    ensures Sum(e) != 0.0 ==> Sum(v) == 1.0 && forall j | 0 <= j < |v| :: v[j] * Sum(e) == e[j]
  {
    var total := Sum(e);
    SumNonNegative(e);
    if total == 0.0 then Zeros(|e|)
    else
      SumDivideAll(e, total);
      var v := DivideAll(e, total);
      assert forall j | 0 <= j < |v| :: v[j] <= 1.0 by {
        forall j | 0 <= j < |v| ensures v[j] <= 1.0 {
          TermAtMostSum(e, j);
          DivideAtMostOne(e[j], total);
        }
      }
      v
  }

  /** `compute_lora_energy_metrics` */
  function ComputeLoraEnergyMetrics(entry: EnergyInput): (m: EnergyMetrics)
    ensures m.stableId == entry.stableId && m.rawStrengthFactor == entry.rawStrengthFactor
    ensures m.role == CanonicalizeRole(entry.role)
    ensures m.energyBlocks == EnergyBlocks(entry.blockWeights, entry.rawStrengthFactor)
    ensures |m.normalizedEnergyVector| == |entry.blockWeights|
    ensures m.totalEnergy == Sum(m.energyBlocks) && m.totalEnergy >= 0.0
    ensures forall j | 0 <= j < |m.normalizedEnergyVector| :: 0.0 <= m.normalizedEnergyVector[j] <= 1.0
    ensures m.totalEnergy == 0.0 ==> forall j | 0 <= j < |m.normalizedEnergyVector| :: m.normalizedEnergyVector[j] == 0.0
    ensures m.totalEnergy != 0.0 ==> Sum(m.normalizedEnergyVector) == 1.0
    ensures m.totalEnergy != 0.0 ==>
              forall j | 0 <= j < |m.normalizedEnergyVector| :: m.normalizedEnergyVector[j] * m.totalEnergy == m.energyBlocks[j]
  {
    var e := EnergyBlocks(entry.blockWeights, entry.rawStrengthFactor);
    SumNonNegative(e);
    EnergyMetrics(entry.stableId, CanonicalizeRole(entry.role), entry.rawStrengthFactor, e, Sum(e), NormalizeEnergy(e))
  }

  lemma SumOfThree(a: real, b: real, c: real)
    ensures Sum([a, b, c]) == a + b + c
  {
    assert [a][..0] == [];
    assert Sum([a]) == a;
    assert [a, b][..1] == [a];
    assert Sum([a, b]) == a + b;
    assert [a, b, c][..2] == [a, b];
  }

  lemma EnergyExample()
    ensures var m := ComputeLoraEnergyMetrics(EnergyInput("A", "character", [-1.0, 0.5, 0.0], 2.0));
            m.energyBlocks == [2.0, 1.0, 0.0] && m.totalEnergy == 3.0
            && m.normalizedEnergyVector == [2.0 / 3.0, 1.0 / 3.0, 0.0]
  {
    var e := EnergyBlocks([-1.0, 0.5, 0.0], 2.0);
    assert e[0] == 2.0 && e[1] == 1.0 && e[2] == 0.0;
    assert e == [2.0, 1.0, 0.0];
    SumOfThree(2.0, 1.0, 0.0);
    var v := NormalizeEnergy(e);
    assert v == DivideAll(e, 3.0);
    assert v[0] == 2.0 / 3.0 && v[1] == 1.0 / 3.0 && v[2] == 0.0;
    assert v == [2.0 / 3.0, 1.0 / 3.0, 0.0];
  }

  // ---------------------------------------------------------------
  // Overlap
  // ---------------------------------------------------------------

  /** `sum(a * b for a, b in zip(left, right))` */
  function ZipDot(a: seq<real>, b: seq<real>): real
    decreases |a|
  {
    if a == [] || b == [] then 0.0 else a[0] * b[0] + ZipDot(a[1..], b[1..])
  }

  /** `dot_overlap`: fails on vectors of different lengths. */
  function DotOverlap(left: seq<real>, right: seq<real>): (r: Result<real, string>)
    ensures r.Err? <==> |left| != |right|
    ensures r.Err? ==> r.error == UnequalLengthError
    ensures r.Ok? ==> r.value == ZipDot(left, right) == ZipDot(right, left)
  {
    ZipDotSymmetric(left, right);
    if |left| != |right| then Err(UnequalLengthError) else Ok(ZipDot(left, right))
  }

  lemma {:induction false} ZipDotSymmetric(a: seq<real>, b: seq<real>)
    ensures ZipDot(a, b) == ZipDot(b, a)
    decreases |a|
  {
    if a != [] && b != [] {
      ZipDotSymmetric(a[1..], b[1..]);
    }
  }

  lemma SumFront(s: seq<real>)
    requires s != []
    ensures Sum(s) == s[0] + Sum(s[1..])
  {
    assert s == [s[0]] + s[1..];
    SumConcat([s[0]], s[1..]);
    assert [s[0]][..0] == [];
  }

  lemma {:induction false} ZipDotNonNegative(a: seq<real>, b: seq<real>)
    requires AllNonNegative(a) && AllNonNegative(b)
    ensures 0.0 <= ZipDot(a, b)
    decreases |a|
  {
    if a != [] && b != [] {
      var a', b' := a[1..], b[1..];
      assert AllNonNegative(a') && AllNonNegative(b');
      ZipDotNonNegative(a', b');
      MulNonNegative(a[0], b[0]);
    }
  }

  /** With `a` non-negative and `b` between 0 and 1, the dot product is at most the sum of `a`. */
  lemma {:induction false} ZipDotAtMostSum(a: seq<real>, b: seq<real>)
    requires AllNonNegative(a) && |a| <= |b|
    requires forall j | 0 <= j < |b| :: 0.0 <= b[j] <= 1.0
    ensures ZipDot(a, b) <= Sum(a)
    decreases |a|
  {
    if a != [] {
      var a', b' := a[1..], b[1..];
      assert AllNonNegative(a');
      ZipDotAtMostSum(a', b');
      SumFront(a);
      MulMonotone(a[0], b[0]);
      assert ZipDot(a, b) == a[0] * b[0] + ZipDot(a', b');
    }
  }

  lemma MulMonotone(x: real, y: real)
    requires x >= 0.0 && 0.0 <= y <= 1.0
    ensures 0.0 <= x * y <= x
  {
  }

  /** The overlap of two computed energy vectors lies between 0 and 1. */
  lemma OverlapInUnitInterval(e1: EnergyInput, e2: EnergyInput)
    ensures var a := ComputeLoraEnergyMetrics(e1).normalizedEnergyVector;
            var b := ComputeLoraEnergyMetrics(e2).normalizedEnergyVector;
            0.0 <= ZipDot(a, b) <= 1.0
  {
    var m1 := ComputeLoraEnergyMetrics(e1);
    var m2 := ComputeLoraEnergyMetrics(e2);
    var a := m1.normalizedEnergyVector;
    var b := m2.normalizedEnergyVector;
    ZipDotNonNegative(a, b);
    if |a| <= |b| {
      ZipDotAtMostSum(a, b);
      if m1.totalEnergy == 0.0 {
        SumZeroIffAllZero(a);
      }
    } else {
      ZipDotAtMostSum(b, a);
      ZipDotSymmetric(a, b);
      if m2.totalEnergy == 0.0 {
        SumZeroIffAllZero(b);
      }
    }
  }

  predicate DistinctIds(metrics: seq<EnergyMetrics>)
  {
    forall i, j | 0 <= i < j < |metrics| :: metrics[i].stableId != metrics[j].stableId
  }

  predicate EqualLengths(metrics: seq<EnergyMetrics>)
  {
    forall i, j | 0 <= i < |metrics| && 0 <= j < |metrics| ::
      |metrics[i].normalizedEnergyVector| == |metrics[j].normalizedEnergyVector|
  }

  /** Every ordered pair of stable ids has an entry. */
  predicate HasAllPairs(metrics: seq<EnergyMetrics>, overlap: map<string, map<string, real>>)
  {
    forall x, y | x in metrics && y in metrics :: x.stableId in overlap && y.stableId in overlap[x.stableId]
  }

  /** Every entry is the dot product of the two normalised vectors. */
  predicate IsDotMatrix(metrics: seq<EnergyMetrics>, overlap: map<string, map<string, real>>)
    requires HasAllPairs(metrics, overlap)
  {
    forall x, y | x in metrics && y in metrics ::
      overlap[x.stableId][y.stableId] == ZipDot(x.normalizedEnergyVector, y.normalizedEnergyVector)
  }

  lemma SameIdSameMetrics(metrics: seq<EnergyMetrics>, x: EnergyMetrics, y: EnergyMetrics)
    requires DistinctIds(metrics) && x in metrics && y in metrics && x.stableId == y.stableId
    ensures x == y
  {
    var i :| 0 <= i < |metrics| && metrics[i] == x;
    var j :| 0 <= j < |metrics| && metrics[j] == y;
    assert !(i < j) && !(j < i);
  }

  /** Rows `0 .. i - 1` hold an entry for every stable id. */
  predicate RowsFilled(metrics: seq<EnergyMetrics>, matrix: map<string, map<string, real>>, i: int)
  {
    forall a, b | 0 <= a < i && 0 <= a < |metrics| && 0 <= b < |metrics| ::
      metrics[a].stableId in matrix && metrics[b].stableId in matrix[metrics[a].stableId]
  }

  /** Rows `0 .. i - 1` hold the dot products. */
  predicate RowsAreDots(metrics: seq<EnergyMetrics>, matrix: map<string, map<string, real>>, i: int)
    requires RowsFilled(metrics, matrix, i)
  {
    forall a, b | 0 <= a < i && 0 <= a < |metrics| && 0 <= b < |metrics| ::
      matrix[metrics[a].stableId][metrics[b].stableId]
      == ZipDot(metrics[a].normalizedEnergyVector, metrics[b].normalizedEnergyVector)
  }

  /** The inner loop of `build_overlap_matrix`: row `i`, reusing mirrored entries of earlier rows. */
  method OverlapRow(metrics: seq<EnergyMetrics>, i: nat, matrix: map<string, map<string, real>>)
    returns (r: Result<map<string, real>, string>)
    requires i < |metrics| && RowsFilled(metrics, matrix, i)
    requires DistinctIds(metrics) ==> RowsAreDots(metrics, matrix, i)
    ensures r.Err? ==> !EqualLengths(metrics) && r.error == UnequalLengthError
    ensures r.Ok? ==> forall b | i <= b < |metrics| ::
              |metrics[i].normalizedEnergyVector| == |metrics[b].normalizedEnergyVector|
    ensures r.Ok? ==> forall b | 0 <= b < |metrics| :: metrics[b].stableId in r.value
    ensures r.Ok? && DistinctIds(metrics) ==> forall b | 0 <= b < |metrics| ::
              r.value[metrics[b].stableId] == ZipDot(metrics[i].normalizedEnergyVector, metrics[b].normalizedEnergyVector)
  {
    var left := metrics[i];
    var row: map<string, real> := map[];
    for j := 0 to |metrics|
      invariant forall b | 0 <= b < j :: metrics[b].stableId in row
      invariant forall b | i <= b < j :: |left.normalizedEnergyVector| == |metrics[b].normalizedEnergyVector|
      invariant DistinctIds(metrics) ==> forall b | 0 <= b < j ::
                  row[metrics[b].stableId] == ZipDot(left.normalizedEnergyVector, metrics[b].normalizedEnergyVector)
    {
      var right := metrics[j];
      if j < i && right.stableId in matrix && left.stableId in matrix[right.stableId] {
        ZipDotSymmetric(right.normalizedEnergyVector, left.normalizedEnergyVector);
        row := row[right.stableId := matrix[right.stableId][left.stableId]];
      } else {
        var d := DotOverlap(left.normalizedEnergyVector, right.normalizedEnergyVector);
        if d.Err? {
          assert |metrics[i].normalizedEnergyVector| != |metrics[j].normalizedEnergyVector|;
          return Err(d.error);
        }
        row := row[right.stableId := d.value];
      }
    }
    r := Ok(row);
  }

  /**
   * `build_overlap_matrix`: row `i` reuses the mirrored entry of an
   * earlier row when it exists and computes the dot product otherwise.
   */
  method BuildOverlapMatrix(metrics: seq<EnergyMetrics>) returns (r: Result<map<string, map<string, real>>, string>)
    ensures r.Err? <==> !EqualLengths(metrics)
    ensures r.Err? ==> r.error == UnequalLengthError
    ensures r.Ok? ==> HasAllPairs(metrics, r.value)
    ensures r.Ok? && DistinctIds(metrics) ==> IsDotMatrix(metrics, r.value)
  {
    var n := |metrics|;
    var matrix: map<string, map<string, real>> := map[];
    for i := 0 to n
      invariant forall a, b | 0 <= a < i && a <= b < n ::
                  |metrics[a].normalizedEnergyVector| == |metrics[b].normalizedEnergyVector|
      invariant RowsFilled(metrics, matrix, i)
      invariant DistinctIds(metrics) ==> RowsAreDots(metrics, matrix, i)
    {
      var row := OverlapRow(metrics, i, matrix);
      if row.Err? {
        return Err(row.error);
      }
      matrix := matrix[metrics[i].stableId := row.value];
    }
    MatrixComplete(metrics, matrix);
    r := Ok(matrix);
  }

  lemma MatrixComplete(metrics: seq<EnergyMetrics>, matrix: map<string, map<string, real>>)
    requires forall a, b | 0 <= a < |metrics| && a <= b < |metrics| ::
               |metrics[a].normalizedEnergyVector| == |metrics[b].normalizedEnergyVector|
    requires RowsFilled(metrics, matrix, |metrics|)
    requires DistinctIds(metrics) ==> RowsAreDots(metrics, matrix, |metrics|)
    ensures EqualLengths(metrics) && HasAllPairs(metrics, matrix)
    ensures DistinctIds(metrics) ==> IsDotMatrix(metrics, matrix)
  {
    var n := |metrics|;
    forall a, b | 0 <= a < n && 0 <= b < n
      ensures |metrics[a].normalizedEnergyVector| == |metrics[b].normalizedEnergyVector|
    {
      if b < a {
        assert |metrics[b].normalizedEnergyVector| == |metrics[a].normalizedEnergyVector|;
      }
    }
    forall x, y | x in metrics && y in metrics
      ensures x.stableId in matrix && y.stableId in matrix[x.stableId]
    {
      var a :| 0 <= a < n && metrics[a] == x;
      var b :| 0 <= b < n && metrics[b] == y;
    }
    if DistinctIds(metrics) {
      forall x, y | x in metrics && y in metrics
        ensures matrix[x.stableId][y.stableId] == ZipDot(x.normalizedEnergyVector, y.normalizedEnergyVector)
      {
        var a :| 0 <= a < n && metrics[a] == x;
        var b :| 0 <= b < n && metrics[b] == y;
      }
    }
  }

  /** The matrix is symmetric and its diagonal holds each vector's self dot product. */
  lemma OverlapMatrixSymmetric(metrics: seq<EnergyMetrics>, overlap: map<string, map<string, real>>)
    requires HasAllPairs(metrics, overlap) && IsDotMatrix(metrics, overlap)
    ensures forall x, y | x in metrics && y in metrics ::
              overlap[x.stableId][y.stableId] == overlap[y.stableId][x.stableId]
    ensures forall x | x in metrics ::
              overlap[x.stableId][x.stableId] == ZipDot(x.normalizedEnergyVector, x.normalizedEnergyVector)
  {
    forall x, y | x in metrics && y in metrics
      ensures overlap[x.stableId][y.stableId] == overlap[y.stableId][x.stableId]
    {
      ZipDotSymmetric(x.normalizedEnergyVector, y.normalizedEnergyVector);
    }
  }

  // ---------------------------------------------------------------
  // Allocation: the specification
  // ---------------------------------------------------------------

  /** The bucket of `by_role` a metrics entry is appended to. */
  function RoleOf(m: EnergyMetrics): (r: Role)
    ensures RoleNamed(m.role).Some? ==> RoleName(r) == m.role
    ensures RoleNamed(m.role).None? ==> r == Other
  {
    match RoleNamed(m.role)
    case Some(role) => role
    case None => Other
  }

  function RoleItems(metrics: seq<EnergyMetrics>, role: Role): seq<EnergyMetrics>
    decreases |metrics|
  {
    if metrics == [] then []
    else
      var last := metrics[|metrics| - 1];
      RoleItems(metrics[..|metrics| - 1], role) + (if RoleOf(last) == role then [last] else [])
  }

  lemma RoleItemsStep(metrics: seq<EnergyMetrics>, k: nat, role: Role)
    requires k < |metrics|
    ensures RoleItems(metrics[..k + 1], role)
            == RoleItems(metrics[..k], role) + (if RoleOf(metrics[k]) == role then [metrics[k]] else [])
  {
    var p := metrics[..k + 1];
    assert p[..k] == metrics[..k] && p[k] == metrics[k];
  }

  lemma RoleItemsMember(metrics: seq<EnergyMetrics>, role: Role, x: EnergyMetrics)
    ensures x in RoleItems(metrics, role) <==> x in metrics && RoleOf(x) == role
  {
    RoleItemsMembers(metrics, role);
  }

  lemma {:induction false} RoleItemsMembers(metrics: seq<EnergyMetrics>, role: Role)
    ensures forall x :: x in RoleItems(metrics, role) <==> x in metrics && RoleOf(x) == role
    decreases |metrics|
  {
    if metrics != [] {
      var p := metrics[..|metrics| - 1];
      RoleItemsMembers(p, role);
      assert metrics == p + [metrics[|metrics| - 1]];
    }
  }

  function AbsStrengths(items: seq<EnergyMetrics>): (r: seq<real>)
    ensures |r| == |items| && AllNonNegative(r)
  {
    seq(|items|, k requires 0 <= k < |items| => Abs(items[k].rawStrengthFactor))
  }

  function Energies(items: seq<EnergyMetrics>): (r: seq<real>)
    ensures |r| == |items|
  {
    seq(|items|, k requires 0 <= k < |items| => items[k].totalEnergy)
  }

  /** `sum(abs(m.raw_strength_factor) for m in metrics)` */
  function TotalRequested(metrics: seq<EnergyMetrics>): (r: real)
    ensures r >= 0.0
  {
    SumNonNegative(AbsStrengths(metrics));
    Sum(AbsStrengths(metrics))
  }

  /** Python's `min(a, b)` */
  function MinOf(a: real, b: real): (r: real)
    ensures r <= a && r <= b && (r == a || r == b)
  {
    if b < a then b else a
  }

  /** Python's `max(a, b)` */
  function MaxOf(a: real, b: real): (r: real)
    ensures r >= a && r >= b && (r == a || r == b)
  {
    if b > a then b else a
  }

  /** `min(role_cap, role_demand)` */
  function Allocatable(items: seq<EnergyMetrics>, role: Role, total: real): real
  {
    MinOf(RoleBudget(role) * total, Sum(AbsStrengths(items)))
  }

  /** The base allocation of `m` inside its role: the role's share cut in proportion to energy. */
  function BaseAllocation(items: seq<EnergyMetrics>, role: Role, total: real, m: EnergyMetrics): real
  {
    var energy := Sum(Energies(items));
    if energy == 0.0 then 0.0 else Allocatable(items, role, total) * (m.totalEnergy / energy)
  }

  function BaseValue(metrics: seq<EnergyMetrics>, total: real, m: EnergyMetrics): real
  {
    var role := RoleOf(m);
    BaseAllocation(RoleItems(metrics, role), role, total, m)
  }

  /** The largest overlap of `m` with a same-role peer under another stable id, or 0. */
  function MaxPeerOverlap(items: seq<EnergyMetrics>, m: EnergyMetrics): real
    decreases |items|
  {
    if items == [] then 0.0
    else
      var rest := MaxPeerOverlap(items[..|items| - 1], m);
      var peer := items[|items| - 1];
      if peer.stableId == m.stableId then rest
      else MaxOf(rest, ZipDot(m.normalizedEnergyVector, peer.normalizedEnergyVector))
  }

  lemma MaxPeerStep(items: seq<EnergyMetrics>, m: EnergyMetrics, k: nat)
    requires k < |items|
    ensures MaxPeerOverlap(items[..k + 1], m)
            == if items[k].stableId == m.stableId then MaxPeerOverlap(items[..k], m)
               else MaxOf(MaxPeerOverlap(items[..k], m), ZipDot(m.normalizedEnergyVector, items[k].normalizedEnergyVector))
  {
    var p := items[..k + 1];
    assert p[..k] == items[..k] && p[k] == items[k];
  }

  /** `threshold / max_overlap` when the maximum overlap exceeds the threshold, else 1. */
  function DampingFactor(maxOverlap: real, threshold: real): real
  {
    if maxOverlap > threshold && maxOverlap > 0.0 then threshold / maxOverlap else 1.0
  }

  function SignOf(x: real): real
  {
    if x < 0.0 then -1.0 else 1.0
  }

  /** The base allocation of one entry after overlap damping. */
  function DampedValue(metrics: seq<EnergyMetrics>, threshold: real, m: EnergyMetrics): real
  {
    BaseValue(metrics, TotalRequested(metrics), m) * DampingFactor(MaxPeerOverlap(RoleItems(metrics, RoleOf(m)), m), threshold)
  }

  /** The allocation of one entry when the total requested strength is not zero. */
  function AllocationFor(metrics: seq<EnergyMetrics>, threshold: real, m: EnergyMetrics): real
  {
    DampedValue(metrics, threshold, m) * SignOf(m.rawStrengthFactor)
  }

  // ---------------------------------------------------------------
  // Allocation: properties
  // ---------------------------------------------------------------

  /** The base allocations of one role, in role order. */
  function BaseShares(items: seq<EnergyMetrics>, role: Role, total: real): (r: seq<real>)
    ensures |r| == |items|
  {
    seq(|items|, k requires 0 <= k < |items| => BaseAllocation(items, role, total, items[k]))
  }

  /** `[c * (v / d) for v in e]` */
  function Scaled(e: seq<real>, c: real, d: real): (r: seq<real>)
    requires d != 0.0
    ensures |r| == |e| && forall k | 0 <= k < |e| :: r[k] == c * (e[k] / d)
  {
    seq(|e|, k requires 0 <= k < |e| => c * (e[k] / d))
  }

  lemma {:induction false} SumScaled(e: seq<real>, c: real, d: real)
    requires d != 0.0
    ensures Sum(Scaled(e, c, d)) == c * (Sum(e) / d)
    decreases |e|
  {
    if e != [] {
      var p := e[..|e| - 1];
      var x := e[|e| - 1];
      SumScaled(p, c, d);
      ScaledPrefix(e, c, d);
      assert Sum(Scaled(e, c, d)) == Sum(Scaled(p, c, d)) + c * (x / d);
      assert Sum(e) == Sum(p) + x;
      DistributeQuotient(c, Sum(p), x, d);
    }
  }

  /** Scaling commutes with dropping the last entry. */
  lemma ScaledPrefix(e: seq<real>, c: real, d: real)
    requires d != 0.0 && e != []
    ensures Scaled(e, c, d)[..|e| - 1] == Scaled(e[..|e| - 1], c, d)
  {
    var p := e[..|e| - 1];
    var s, sp := Scaled(e, c, d), Scaled(p, c, d);
    forall k | 0 <= k < |p| ensures s[..|e| - 1][k] == sp[k] {
      assert p[k] == e[k];
    }
  }

  lemma DistributeQuotient(c: real, a: real, b: real, d: real)
    requires d != 0.0
    ensures c * (a / d) + c * (b / d) == c * ((a + b) / d)
  {
    assert a / d + b / d == (a + b) / d;
  }

  /**
   * Inside a role the base allocations add up to `min(cap, demand)`, or to
   * 0 when the role has no energy.
   */
  lemma RoleSharesSum(items: seq<EnergyMetrics>, role: Role, total: real)
    ensures Sum(BaseShares(items, role, total))
            == if Sum(Energies(items)) == 0.0 then 0.0 else Allocatable(items, role, total)
  {
    if Sum(Energies(items)) == 0.0 {
      RoleSharesWithoutEnergy(items, role, total);
    } else {
      RoleSharesWithEnergy(items, role, total);
    }
  }

  lemma RoleSharesWithoutEnergy(items: seq<EnergyMetrics>, role: Role, total: real)
    requires Sum(Energies(items)) == 0.0
    ensures Sum(BaseShares(items, role, total)) == 0.0
  {
    assert BaseShares(items, role, total) == Zeros(|items|);
    SumZeros(|items|);
  }

  lemma RoleSharesWithEnergy(items: seq<EnergyMetrics>, role: Role, total: real)
    requires Sum(Energies(items)) != 0.0
    ensures Sum(BaseShares(items, role, total)) == Allocatable(items, role, total)
  {
    var energy := Sum(Energies(items));
    var shares := BaseShares(items, role, total);
    var c := Allocatable(items, role, total);
    var e := Energies(items);
    var scaled := Scaled(e, c, energy);
    forall k | 0 <= k < |items| ensures shares[k] == scaled[k] {
      assert e[k] == items[k].totalEnergy;
    }
    assert shares == scaled;
    SumScaled(e, c, energy);
    assert energy / energy == 1.0;
    assert c * (energy / energy) == c;
  }

  /** So a role never receives more than its budget share of the total, nor more than it asked for. */
  lemma RoleBudgetRespected(items: seq<EnergyMetrics>, role: Role, total: real)
    requires total >= 0.0
    ensures Sum(BaseShares(items, role, total)) <= RoleBudget(role) * total
    ensures Sum(BaseShares(items, role, total)) <= Sum(AbsStrengths(items))
  {
    RoleSharesSum(items, role, total);
    SumNonNegative(AbsStrengths(items));
    HierarchyIsComplete();
    assert RoleBudget(role) * total >= 0.0;
  }

  /** Each entry's base allocation is the role's allocatable strength times its share of the role's energy. */
  lemma BaseAllocationProportional(items: seq<EnergyMetrics>, role: Role, total: real, m: EnergyMetrics)
    requires Sum(Energies(items)) != 0.0
    ensures BaseAllocation(items, role, total, m) * Sum(Energies(items)) == Allocatable(items, role, total) * m.totalEnergy
  {
    var energy := Sum(Energies(items));
    var c := Allocatable(items, role, total);
    assert m.totalEnergy / energy * energy == m.totalEnergy;
    assert c * (m.totalEnergy / energy) * energy == c * (m.totalEnergy / energy * energy);
  }

  lemma DampingFactorBounds(maxOverlap: real, threshold: real)
    ensures DampingFactor(maxOverlap, threshold) <= 1.0
    ensures DampingFactor(maxOverlap, threshold) != 1.0 <==> maxOverlap > threshold && maxOverlap > 0.0
    ensures threshold >= 0.0 ==> DampingFactor(maxOverlap, threshold) >= 0.0
    ensures maxOverlap > threshold && maxOverlap > 0.0 ==> DampingFactor(maxOverlap, threshold) * maxOverlap == threshold
  {
    if maxOverlap > threshold && maxOverlap > 0.0 {
      DivideAtMostOne(threshold, maxOverlap);
      assert threshold / maxOverlap * maxOverlap == threshold;
    }
  }

  lemma BaseAllocationNonNegative(items: seq<EnergyMetrics>, role: Role, total: real, m: EnergyMetrics)
    requires total >= 0.0 && m.totalEnergy >= 0.0
    requires AllNonNegative(Energies(items))
    ensures BaseAllocation(items, role, total, m) >= 0.0
  {
    var energy := Sum(Energies(items));
    SumNonNegative(Energies(items));
    SumNonNegative(AbsStrengths(items));
    HierarchyIsComplete();
    var c := Allocatable(items, role, total);
    MulNonNegative(RoleBudget(role), total);
    if energy != 0.0 {
      DivideNonNegative(m.totalEnergy, energy);
      MulNonNegative(c, m.totalEnergy / energy);
    }
  }

  lemma BaseValueNonNegative(metrics: seq<EnergyMetrics>, total: real, m: EnergyMetrics)
    requires total >= 0.0 && m in metrics
    requires forall x | x in metrics :: x.totalEnergy >= 0.0
    ensures BaseValue(metrics, total, m) >= 0.0
  {
    var role := RoleOf(m);
    var items := RoleItems(metrics, role);
    RoleItemsMembers(metrics, role);
    assert AllNonNegative(Energies(items));
    BaseAllocationNonNegative(items, role, total, m);
  }

  lemma MulNonNegative(x: real, y: real)
    requires x >= 0.0 && y >= 0.0
    ensures x * y >= 0.0
  {
  }

  /**
   * With a non-negative threshold and non-negative energies, an entry's
   * allocation has the sign of its requested strength and its size is at
   * most its base allocation.
   */
  lemma AllocationSign(metrics: seq<EnergyMetrics>, threshold: real, m: EnergyMetrics)
    requires threshold >= 0.0 && m in metrics
    requires forall x | x in metrics :: x.totalEnergy >= 0.0
    ensures m.rawStrengthFactor < 0.0 ==> AllocationFor(metrics, threshold, m) <= 0.0
    ensures m.rawStrengthFactor >= 0.0 ==> AllocationFor(metrics, threshold, m) >= 0.0
    ensures Abs(AllocationFor(metrics, threshold, m)) <= BaseValue(metrics, TotalRequested(metrics), m)
  {
    var base := BaseValue(metrics, TotalRequested(metrics), m);
    BaseValueNonNegative(metrics, TotalRequested(metrics), m);
    var peak := MaxPeerOverlap(RoleItems(metrics, RoleOf(m)), m);
    var f := DampingFactor(peak, threshold);
    DampingFactorBounds(peak, threshold);
    assert AllocationFor(metrics, threshold, m) == base * f * SignOf(m.rawStrengthFactor);
    DampedSign(base, f, m.rawStrengthFactor);
  }

  lemma DampedSign(base: real, f: real, raw: real)
    requires base >= 0.0 && 0.0 <= f <= 1.0
    ensures raw < 0.0 ==> base * f * SignOf(raw) <= 0.0
    ensures raw >= 0.0 ==> base * f * SignOf(raw) >= 0.0
    ensures Abs(base * f * SignOf(raw)) <= base
  {
    MulMonotone(base, f);
    SignedMagnitude(base * f, raw);
  }

  lemma SignedMagnitude(p: real, raw: real)
    requires p >= 0.0
    ensures raw < 0.0 ==> p * SignOf(raw) <= 0.0
    ensures raw >= 0.0 ==> p * SignOf(raw) >= 0.0
    ensures Abs(p * SignOf(raw)) == p
  {
  }

  // ---------------------------------------------------------------
  // Allocation: the loops
  // ---------------------------------------------------------------

  function Ids(metrics: seq<EnergyMetrics>): set<string>
  {
    set x | x in metrics :: x.stableId
  }

  /** The base allocation recorded for an entry is the specification's (stable ids distinct). */
  predicate BaseCorrect(metrics: seq<EnergyMetrics>, total: real, base: map<string, real>)
  {
    DistinctIds(metrics) ==>
      forall x | x in metrics && x.stableId in base :: base[x.stableId] == BaseValue(metrics, total, x)
  }

  predicate DampedCorrect(metrics: seq<EnergyMetrics>, threshold: real, corrected: map<string, real>)
  {
    DistinctIds(metrics) ==>
      forall x | x in metrics && x.stableId in corrected :: corrected[x.stableId] == DampedValue(metrics, threshold, x)
  }

  predicate KeysFromMetrics(metrics: seq<EnergyMetrics>, m: map<string, real>)
  {
    forall k | k in m :: k in Ids(metrics)
  }

  /** Under distinct stable ids, only `item` itself carries `item`'s id. */
  lemma OnlyOwner(metrics: seq<EnergyMetrics>, item: EnergyMetrics)
    requires item in metrics
    ensures DistinctIds(metrics) ==> forall x | x in metrics && x.stableId == item.stableId :: x == item
  {
    if DistinctIds(metrics) {
      forall x | x in metrics && x.stableId == item.stableId ensures x == item {
        SameIdSameMetrics(metrics, x, item);
      }
    }
  }

  /** `by_role`: every entry appended to its role's list, in input order. */
  method GroupByRole(metrics: seq<EnergyMetrics>) returns (byRole: map<Role, seq<EnergyMetrics>>)
    ensures forall role: Role :: role in byRole
    ensures forall role: Role :: byRole[role] == RoleItems(metrics, role)
  {
    HierarchyIsComplete();
    byRole := map role | role in RoleHierarchy :: [];
    for k := 0 to |metrics|
      invariant forall role: Role :: role in byRole
      invariant forall role: Role :: byRole[role] == RoleItems(metrics[..k], role)
    {
      var m := metrics[k];
      var named := RoleNamed(m.role);
      var key := if named.Some? then named.value else Other;
      assert key == RoleOf(m);
      forall role: Role {
        RoleItemsStep(metrics, k, role);
      }
      byRole := byRole[key := byRole[key] + [m]];
    }
    assert metrics[..|metrics|] == metrics;
  }

  /** The specification's base allocation of an item of `role`, written as the loop computes it. */
  lemma ItemBaseShare(metrics: seq<EnergyMetrics>, items: seq<EnergyMetrics>, role: Role, total: real,
                      item: EnergyMetrics, v: real)
    requires items == RoleItems(metrics, role) && item in items
    requires Sum(Energies(items)) != 0.0
    requires v == MinOf(RoleBudget(role) * total, Sum(AbsStrengths(items))) * (item.totalEnergy / Sum(Energies(items)))
    ensures BaseValue(metrics, total, item) == v
  {
    RoleItemsMember(metrics, role, item);
    assert BaseValue(metrics, total, item) == BaseAllocation(items, role, total, item);
    BaseAllocationUnfold(items, role, total, item);
  }

  lemma ItemBaseZero(metrics: seq<EnergyMetrics>, items: seq<EnergyMetrics>, role: Role, total: real,
                     item: EnergyMetrics)
    requires items == RoleItems(metrics, role) && item in items
    requires Sum(Energies(items)) == 0.0
    ensures BaseValue(metrics, total, item) == 0.0
  {
    RoleItemsMember(metrics, role, item);
    assert BaseValue(metrics, total, item) == BaseAllocation(items, role, total, item);
  }

  lemma BaseAllocationUnfold(items: seq<EnergyMetrics>, role: Role, total: real, item: EnergyMetrics)
    ensures BaseAllocation(items, role, total, item)
            == if Sum(Energies(items)) == 0.0 then 0.0
               else MinOf(RoleBudget(role) * total, Sum(AbsStrengths(items))) * (item.totalEnergy / Sum(Energies(items)))
  {
  }

  lemma RecordBase(metrics: seq<EnergyMetrics>, total: real, base: map<string, real>, item: EnergyMetrics, v: real)
    requires item in metrics && v == BaseValue(metrics, total, item)
    requires KeysFromMetrics(metrics, base) && BaseCorrect(metrics, total, base)
    ensures KeysFromMetrics(metrics, base[item.stableId := v]) && BaseCorrect(metrics, total, base[item.stableId := v])
  {
    OnlyOwner(metrics, item);
  }

  /** `allocatable * share` for one item, or 0 when its role has no energy. */
  method ItemAllocation(metrics: seq<EnergyMetrics>, items: seq<EnergyMetrics>, role: Role, total: real,
                        item: EnergyMetrics, allocatable: real, energyTotal: real) returns (v: real)
    requires items == RoleItems(metrics, role) && item in items
    requires energyTotal == Sum(Energies(items))
    requires allocatable == MinOf(RoleBudget(role) * total, Sum(AbsStrengths(items)))
    ensures v == BaseValue(metrics, total, item)
  {
    if energyTotal == 0.0 {
      v := 0.0;
      ItemBaseZero(metrics, items, role, total, item);
    } else {
      var share := item.totalEnergy / energyTotal;
      v := allocatable * share;
      ItemBaseShare(metrics, items, role, total, item, v);
    }
  }

  /** The base-allocation loop for one role's non-empty item list. */
  method AllocateRole(metrics: seq<EnergyMetrics>, items: seq<EnergyMetrics>, role: Role, total: real,
                      base0: map<string, real>) returns (base: map<string, real>)
    requires items == RoleItems(metrics, role)
    requires KeysFromMetrics(metrics, base0) && BaseCorrect(metrics, total, base0)
    ensures KeysFromMetrics(metrics, base) && BaseCorrect(metrics, total, base)
    ensures base0.Keys <= base.Keys
    ensures forall x | x in items :: x.stableId in base
  {
    base := base0;
    var energyTotal := Sum(Energies(items));
    var roleCap := RoleBudget(role) * total;
    var roleDemand := Sum(AbsStrengths(items));
    var allocatable := MinOf(roleCap, roleDemand);
    for k := 0 to |items|
      invariant KeysFromMetrics(metrics, base) && BaseCorrect(metrics, total, base)
      invariant base0.Keys <= base.Keys
      invariant forall a | 0 <= a < k :: items[a].stableId in base
    {
      var item := items[k];
      RoleItemsMember(metrics, role, item);
      var v := ItemAllocation(metrics, items, role, total, item, allocatable, energyTotal);
      RecordBase(metrics, total, base, item, v);
      base := base[item.stableId := v];
    }
    forall x | x in items ensures x.stableId in base {
      var a :| 0 <= a < |items| && items[a] == x;
    }
  }

  /** The base-allocation loop over the role hierarchy. */
  method BaseAllocations(metrics: seq<EnergyMetrics>, byRole: map<Role, seq<EnergyMetrics>>, total: real)
    returns (base: map<string, real>)
    requires forall role: Role :: role in byRole && byRole[role] == RoleItems(metrics, role)
    ensures KeysFromMetrics(metrics, base) && BaseCorrect(metrics, total, base)
    ensures forall x | x in metrics :: x.stableId in base
  {
    HierarchyIsComplete();
    base := map[];
    for ri := 0 to |RoleHierarchy|
      invariant KeysFromMetrics(metrics, base) && BaseCorrect(metrics, total, base)
      invariant forall x | x in metrics && RoleOf(x) in RoleHierarchy[..ri] :: x.stableId in base
    {
      var role := RoleHierarchy[ri];
      var items := byRole[role];
      RoleItemsMembers(metrics, role);
      assert RoleHierarchy[..ri + 1] == RoleHierarchy[..ri] + [role];
      if items != [] {
        base := AllocateRole(metrics, items, role, total, base);
      }
    }
    assert RoleHierarchy[..|RoleHierarchy|] == RoleHierarchy;
  }

  /** The inner `max_overlap` loop over the peers of one item. */
  method PeerMaxOverlap(items: seq<EnergyMetrics>, item: EnergyMetrics, overlap: map<string, map<string, real>>)
    returns (maxOverlap: real)
    requires item.stableId in overlap
    requires forall p | p in items :: p.stableId in overlap[item.stableId]
    ensures (forall p | p in items :: overlap[item.stableId][p.stableId]
                                     == ZipDot(item.normalizedEnergyVector, p.normalizedEnergyVector))
            ==> maxOverlap == MaxPeerOverlap(items, item)
  {
    maxOverlap := 0.0;
    ghost var exact := forall p | p in items :: overlap[item.stableId][p.stableId]
                                                == ZipDot(item.normalizedEnergyVector, p.normalizedEnergyVector);
    for k := 0 to |items|
      invariant exact ==> maxOverlap == MaxPeerOverlap(items[..k], item)
    {
      var peer := items[k];
      MaxPeerStep(items, item, k);
      if peer.stableId != item.stableId {
        maxOverlap := MaxOf(maxOverlap, overlap[item.stableId][peer.stableId]);
      }
    }
    assert items[..|items|] == items;
  }

  /** `base_allocations.get(id, 0.0) * factor` for one item of a role. */
  method DampItem(metrics: seq<EnergyMetrics>, items: seq<EnergyMetrics>, role: Role, threshold: real,
                  base: map<string, real>, overlap: map<string, map<string, real>>, item: EnergyMetrics)
    returns (v: real)
    requires items == RoleItems(metrics, role) && item in items
    requires BaseCorrect(metrics, TotalRequested(metrics), base)
    requires HasAllPairs(metrics, overlap) && (DistinctIds(metrics) ==> IsDotMatrix(metrics, overlap))
    ensures DistinctIds(metrics) && item.stableId in base ==> v == DampedValue(metrics, threshold, item)
  {
    PeerOverlaps(metrics, role, overlap, item);
    var maxOverlap := PeerMaxOverlap(items, item, overlap);
    var factor := 1.0;
    if maxOverlap > threshold && maxOverlap > 0.0 {
      factor := threshold / maxOverlap;
    }
    assert factor == DampingFactor(maxOverlap, threshold);
    var b := if item.stableId in base then base[item.stableId] else 0.0;
    v := b * factor;
    if DistinctIds(metrics) && item.stableId in base {
      DampedValueOf(metrics, role, threshold, item, b, maxOverlap, factor);
    }
  }

  /** The overlap row of a role item covers the role's items, with dot products when ids are distinct. */
  lemma PeerOverlaps(metrics: seq<EnergyMetrics>, role: Role, overlap: map<string, map<string, real>>, item: EnergyMetrics)
    requires item in RoleItems(metrics, role)
    requires HasAllPairs(metrics, overlap) && (DistinctIds(metrics) ==> IsDotMatrix(metrics, overlap))
    ensures item in metrics && item.stableId in overlap
    ensures forall p | p in RoleItems(metrics, role) :: p.stableId in overlap[item.stableId]
    ensures DistinctIds(metrics) ==>
      forall p | p in RoleItems(metrics, role) ::
        overlap[item.stableId][p.stableId] == ZipDot(item.normalizedEnergyVector, p.normalizedEnergyVector)
  {
    RoleItemsMembers(metrics, role);
  }

  lemma DampedValueOf(metrics: seq<EnergyMetrics>, role: Role, threshold: real, item: EnergyMetrics,
                      b: real, peak: real, f: real)
    requires item in RoleItems(metrics, role)
    requires b == BaseValue(metrics, TotalRequested(metrics), item)
    requires peak == MaxPeerOverlap(RoleItems(metrics, role), item) && f == DampingFactor(peak, threshold)
    ensures DampedValue(metrics, threshold, item) == b * f
  {
    RoleItemsMember(metrics, role, item);
  }

  lemma RecordDamped(metrics: seq<EnergyMetrics>, threshold: real, corrected: map<string, real>,
                     item: EnergyMetrics, v: real)
    requires item in metrics && (DistinctIds(metrics) ==> v == DampedValue(metrics, threshold, item))
    requires KeysFromMetrics(metrics, corrected) && DampedCorrect(metrics, threshold, corrected)
    ensures KeysFromMetrics(metrics, corrected[item.stableId := v])
    ensures DampedCorrect(metrics, threshold, corrected[item.stableId := v])
  {
    OnlyOwner(metrics, item);
  }

  lemma IdsGrow(items: seq<EnergyMetrics>, k: nat, before: set<string>, after: set<string>)
    requires k < |items| && after == before + {items[k].stableId}
    requires forall a | 0 <= a < k :: items[a].stableId in before
    ensures forall a | 0 <= a < k + 1 :: items[a].stableId in after
  {
  }

  /** One iteration of the damping loop: record the damped value of `item`. */
  method DampOne(metrics: seq<EnergyMetrics>, items: seq<EnergyMetrics>, role: Role, threshold: real,
                 base: map<string, real>, overlap: map<string, map<string, real>>, item: EnergyMetrics,
                 corrected: map<string, real>)
    returns (next: map<string, real>)
    requires items == RoleItems(metrics, role) && item in items
    requires BaseCorrect(metrics, TotalRequested(metrics), base)
    requires forall x | x in metrics :: x.stableId in base
    requires HasAllPairs(metrics, overlap) && (DistinctIds(metrics) ==> IsDotMatrix(metrics, overlap))
    requires KeysFromMetrics(metrics, corrected) && DampedCorrect(metrics, threshold, corrected)
    ensures KeysFromMetrics(metrics, next) && DampedCorrect(metrics, threshold, next)
    ensures next.Keys == corrected.Keys + {item.stableId}
  {
    RoleItemsMember(metrics, role, item);
    var v := DampItem(metrics, items, role, threshold, base, overlap, item);
    RecordDamped(metrics, threshold, corrected, item, v);
    next := corrected[item.stableId := v];
  }

  /** The damping loop for one role's non-empty item list. */
  method DampRole(metrics: seq<EnergyMetrics>, items: seq<EnergyMetrics>, role: Role, threshold: real,
                  base: map<string, real>, overlap: map<string, map<string, real>>, corrected0: map<string, real>)
    returns (corrected: map<string, real>)
    requires items == RoleItems(metrics, role)
    requires BaseCorrect(metrics, TotalRequested(metrics), base)
    requires forall x | x in metrics :: x.stableId in base
    requires HasAllPairs(metrics, overlap) && (DistinctIds(metrics) ==> IsDotMatrix(metrics, overlap))
    requires KeysFromMetrics(metrics, corrected0) && DampedCorrect(metrics, threshold, corrected0)
    ensures KeysFromMetrics(metrics, corrected) && DampedCorrect(metrics, threshold, corrected)
    ensures corrected0.Keys <= corrected.Keys
    ensures forall x | x in items :: x.stableId in corrected
  {
    corrected := corrected0;
    for k := 0 to |items|
      invariant KeysFromMetrics(metrics, corrected) && DampedCorrect(metrics, threshold, corrected)
      invariant corrected0.Keys <= corrected.Keys
      invariant forall a | 0 <= a < k :: items[a].stableId in corrected
    {
      var next := DampOne(metrics, items, role, threshold, base, overlap, items[k], corrected);
      IdsGrow(items, k, corrected.Keys, next.Keys);
      corrected := next;
    }
    forall x | x in items ensures x.stableId in corrected {
      var a :| 0 <= a < |items| && items[a] == x;
    }
  }

  /** The damping loop over the role hierarchy. */
  method DampAllocations(metrics: seq<EnergyMetrics>, byRole: map<Role, seq<EnergyMetrics>>, threshold: real,
                         base: map<string, real>, overlap: map<string, map<string, real>>)
    returns (corrected: map<string, real>)
    requires forall role: Role :: role in byRole && byRole[role] == RoleItems(metrics, role)
    requires BaseCorrect(metrics, TotalRequested(metrics), base)
    requires forall x | x in metrics :: x.stableId in base
    requires HasAllPairs(metrics, overlap) && (DistinctIds(metrics) ==> IsDotMatrix(metrics, overlap))
    ensures KeysFromMetrics(metrics, corrected) && DampedCorrect(metrics, threshold, corrected)
    ensures forall x | x in metrics :: x.stableId in corrected
  {
    HierarchyIsComplete();
    corrected := map[];
    for ri := 0 to |RoleHierarchy|
      invariant KeysFromMetrics(metrics, corrected) && DampedCorrect(metrics, threshold, corrected)
      invariant forall x | x in metrics && RoleOf(x) in RoleHierarchy[..ri] :: x.stableId in corrected
    {
      var role := RoleHierarchy[ri];
      var items := byRole[role];
      RoleItemsMembers(metrics, role);
      assert RoleHierarchy[..ri + 1] == RoleHierarchy[..ri] + [role];
      if items != [] {
        corrected := DampRole(metrics, items, role, threshold, base, overlap, corrected);
      }
    }
    assert RoleHierarchy[..|RoleHierarchy|] == RoleHierarchy;
  }

  lemma IdsStep(metrics: seq<EnergyMetrics>, k: nat)
    requires k < |metrics|
    ensures Ids(metrics[..k + 1]) == Ids(metrics[..k]) + {metrics[k].stableId}
  {
    assert metrics[..k + 1] == metrics[..k] + [metrics[k]];
  }

  /** The final loop: each entry's corrected allocation given the sign of its requested strength. */
  method SignAllocations(metrics: seq<EnergyMetrics>, corrected: map<string, real>) returns (signed: map<string, real>)
    ensures signed.Keys == Ids(metrics)
    ensures DistinctIds(metrics) ==> forall x | x in metrics ::
              signed[x.stableId] == (if x.stableId in corrected then corrected[x.stableId] else 0.0) * SignOf(x.rawStrengthFactor)
  {
    signed := map[];
    for k := 0 to |metrics|
      invariant signed.Keys == Ids(metrics[..k])
      invariant DistinctIds(metrics) ==> forall a | 0 <= a < k ::
                  signed[metrics[a].stableId]
                  == (if metrics[a].stableId in corrected then corrected[metrics[a].stableId] else 0.0)
                     * SignOf(metrics[a].rawStrengthFactor)
    {
      var item := metrics[k];
      IdsStep(metrics, k);
      var c := if item.stableId in corrected then corrected[item.stableId] else 0.0;
      signed := signed[item.stableId := c * (if item.rawStrengthFactor < 0.0 then -1.0 else 1.0)];
    }
    assert metrics[..|metrics|] == metrics;
    forall x | x in metrics
      ensures DistinctIds(metrics) ==>
                signed[x.stableId] == (if x.stableId in corrected then corrected[x.stableId] else 0.0) * SignOf(x.rawStrengthFactor)
    {
      var a :| 0 <= a < |metrics| && metrics[a] == x;
    }
  }

  /**
   * `allocate_strengths_with_role_budget_and_overlap`. With distinct stable
   * ids every entry receives `AllocationFor`; with repeated ids the later
   * dictionary writes win and only the key set is stated.
   */
  method AllocateStrengthsWithRoleBudgetAndOverlap(metrics: seq<EnergyMetrics>, overlapThreshold: real)
    returns (r: Result<map<string, real>, string>)
    ensures metrics == [] ==> r == Ok(map[])
    ensures metrics != [] && TotalRequested(metrics) == 0.0 ==> r == Ok(map id | id in Ids(metrics) :: 0.0)
    ensures metrics != [] && TotalRequested(metrics) != 0.0 ==> (r.Err? <==> !EqualLengths(metrics))
    ensures r.Err? ==> r.error == UnequalLengthError
    ensures r.Ok? ==> r.value.Keys == Ids(metrics)
    ensures r.Ok? && TotalRequested(metrics) != 0.0 && DistinctIds(metrics) ==>
              forall x | x in metrics :: r.value[x.stableId] == AllocationFor(metrics, overlapThreshold, x)
  {
    if metrics == [] {
      return Ok(map[]);
    }
    var total := TotalRequested(metrics);
    if total == 0.0 {
      return Ok(map id | id in Ids(metrics) :: 0.0);
    }
    var byRole := GroupByRole(metrics);
    var base := BaseAllocations(metrics, byRole, total);
    var overlap := BuildOverlapMatrix(metrics);
    if overlap.Err? {
      return Err(overlap.error);
    }
    var corrected := DampAllocations(metrics, byRole, overlapThreshold, base, overlap.value);
    var signed := SignAllocations(metrics, corrected);
    r := Ok(signed);
  }
}
