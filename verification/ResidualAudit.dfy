/**
 The residual audit's aggregation: overlap cells and cohorts of two detectors, and the
 per-cohort attribution of squared residuals to features and feature groups. Floating-point
 sums are modelled over the reals.
 */
module ResidualAudit {
  import opened Text
  import opened Sums
  import Concentration

  // ----- Overlap, confusion and cohorts -----

  ghost predicate Aligned(labels: seq<int>, ae: seq<int>, rf: seq<int>) {
    && |labels| == |ae| == |rf|
    && forall i :: 0 <= i < |labels| ==> labels[i] in {0, 1} && ae[i] in {0, 1} && rf[i] in {0, 1}
  }

  function One(b: bool): nat { if b then 1 else 0 }

  /** np.count_nonzero of the records with this label and these decisions. */
  function Cell(labels: seq<int>, ae: seq<int>, rf: seq<int>, l: int, a: int, f: int): nat
    requires |labels| == |ae| == |rf|
  {
    if labels == [] then 0
    else One(labels[0] == l && ae[0] == a && rf[0] == f) + Cell(labels[1..], ae[1..], rf[1..], l, a, f)
  }

  function Pairs(labels: seq<int>, decisions: seq<int>, l: int, d: int): nat
    requires |labels| == |decisions|
  {
    if labels == [] then 0
    else One(labels[0] == l && decisions[0] == d) + Pairs(labels[1..], decisions[1..], l, d)
  }

  datatype Confusion = Confusion(truePositive: nat, falsePositive: nat, trueNegative: nat, falseNegative: nat)

  function ConfusionOf(labels: seq<int>, decisions: seq<int>): Confusion
    requires |labels| == |decisions|
  {
    Confusion(Pairs(labels, decisions, 1, 1), Pairs(labels, decisions, 0, 1),
              Pairs(labels, decisions, 0, 0), Pairs(labels, decisions, 1, 0))
  }

  lemma {:induction false} MarginsOfOverlap(labels: seq<int>, ae: seq<int>, rf: seq<int>, l: int)
    requires Aligned(labels, ae, rf)
    ensures forall d :: d in {0, 1} ==>
      && Pairs(labels, ae, l, d) == Cell(labels, ae, rf, l, d, 0) + Cell(labels, ae, rf, l, d, 1)
      && Pairs(labels, rf, l, d) == Cell(labels, ae, rf, l, 0, d) + Cell(labels, ae, rf, l, 1, d)
    ensures Pairs(labels, ae, 0, 0) + Pairs(labels, ae, 0, 1) + Pairs(labels, ae, 1, 0) + Pairs(labels, ae, 1, 1) == |labels|
  {
    if labels != [] {
      MarginsOfOverlap(labels[1..], ae[1..], rf[1..], l);
    }
  }

  /** The eight cells add up to the records, and both confusion tables are sums of cells. */
  lemma OverlapConserves(labels: seq<int>, ae: seq<int>, rf: seq<int>)
    requires Aligned(labels, ae, rf)
    ensures var c := (l: int, a: int, f: int) => Cell(labels, ae, rf, l, a, f);
      && c(1, 1, 1) + c(1, 1, 0) + c(1, 0, 1) + c(1, 0, 0) + c(0, 1, 1) + c(0, 1, 0) + c(0, 0, 1) + c(0, 0, 0) == |labels|
      && ConfusionOf(labels, ae)
         == Confusion(c(1, 1, 1) + c(1, 1, 0), c(0, 1, 1) + c(0, 1, 0), c(0, 0, 1) + c(0, 0, 0), c(1, 0, 1) + c(1, 0, 0))
      && ConfusionOf(labels, rf)
         == Confusion(c(1, 1, 1) + c(1, 0, 1), c(0, 1, 1) + c(0, 0, 1), c(0, 1, 0) + c(0, 0, 0), c(1, 1, 0) + c(1, 0, 0))
  {
    MarginsOfOverlap(labels, ae, rf, 0);
    MarginsOfOverlap(labels, ae, rf, 1);
    assert 0 in {0, 1} && 1 in {0, 1};
  }

  function Mask(labels: seq<int>, ae: seq<int>, rf: seq<int>, l: int, a: int, f: int): (m: seq<bool>)
    requires |labels| == |ae| == |rf|
    ensures |m| == |labels|
    ensures forall i :: 0 <= i < |m| ==> (m[i] <==> labels[i] == l && ae[i] == a && rf[i] == f)
  {
    seq(|labels|, i requires 0 <= i < |labels| => labels[i] == l && ae[i] == a && rf[i] == f)
  }

  function CountTrue(m: seq<bool>): nat {
    if m == [] then 0 else One(m[0]) + CountTrue(m[1..])
  }

  lemma {:induction false} MaskCountsItsCell(labels: seq<int>, ae: seq<int>, rf: seq<int>, l: int, a: int, f: int)
    requires |labels| == |ae| == |rf|
    ensures CountTrue(Mask(labels, ae, rf, l, a, f)) == Cell(labels, ae, rf, l, a, f)
  {
    if labels != [] {
      assert Mask(labels, ae, rf, l, a, f)[1..] == Mask(labels[1..], ae[1..], rf[1..], l, a, f);
      MaskCountsItsCell(labels[1..], ae[1..], rf[1..], l, a, f);
    }
  }

  ghost predicate Disjoint(m: seq<bool>, m': seq<bool>) {
    |m| == |m'| && forall i :: 0 <= i < |m| ==> !(m[i] && m'[i])
  }

  /** The four cohorts are pairwise disjoint and as large as their cells. */
  lemma CohortsPartitionTheirCells(labels: seq<int>, ae: seq<int>, rf: seq<int>)
    requires Aligned(labels, ae, rf)
    ensures var aeOnlyAttack, aeOnlyBenign := Mask(labels, ae, rf, 1, 1, 0), Mask(labels, ae, rf, 0, 1, 0);
      var bothAttack, neitherBenign := Mask(labels, ae, rf, 1, 1, 1), Mask(labels, ae, rf, 0, 0, 0);
      && Disjoint(aeOnlyAttack, aeOnlyBenign) && Disjoint(aeOnlyAttack, bothAttack) && Disjoint(aeOnlyAttack, neitherBenign)
      && Disjoint(aeOnlyBenign, bothAttack) && Disjoint(aeOnlyBenign, neitherBenign) && Disjoint(bothAttack, neitherBenign)
      && CountTrue(aeOnlyAttack) == Cell(labels, ae, rf, 1, 1, 0) && CountTrue(aeOnlyBenign) == Cell(labels, ae, rf, 0, 1, 0)
      && CountTrue(bothAttack) == Cell(labels, ae, rf, 1, 1, 1) && CountTrue(neitherBenign) == Cell(labels, ae, rf, 0, 0, 0)
  {
    MaskCountsItsCell(labels, ae, rf, 1, 1, 0);
    MaskCountsItsCell(labels, ae, rf, 0, 1, 0);
    MaskCountsItsCell(labels, ae, rf, 1, 1, 1);
    MaskCountsItsCell(labels, ae, rf, 0, 0, 0);
  }

  // ----- Attribution of squared residuals -----

  const FEATURES: nat := 14

  const FEATURE_GROUPS: seq<seq<nat>> := [[0], [1, 2], [3, 4], [5, 6], [7, 8], [9], [10, 11, 12, 13]]

  type Row = seq<real>

  predicate Matrix(rows: seq<Row>) {
    forall i :: 0 <= i < |rows| ==> |rows[i]| == FEATURES
  }

  function Select<T>(mask: seq<bool>, rows: seq<T>): seq<T>
    requires |mask| == |rows|
  {
    if mask == [] then [] else (if mask[0] then [rows[0]] else []) + Select(mask[1..], rows[1..])
  }

  lemma {:induction false} SelectKeepsRows(mask: seq<bool>, rows: seq<Row>)
    requires |mask| == |rows| && Matrix(rows)
    ensures |Select(mask, rows)| == CountTrue(mask) && Matrix(Select(mask, rows))
  {
    if mask != [] {
      SelectKeepsRows(mask[1..], rows[1..]);
    }
  }

  /** np.sum over axis 0. */
  function ColumnSums(rows: seq<Row>, width: nat): (r: Row)
    requires forall i :: 0 <= i < |rows| ==> |rows[i]| == width
    ensures |r| == width
  {
    if rows == [] then seq(width, _ => 0.0) else Plus(rows[0], ColumnSums(rows[1..], width))
  }

  lemma FeatureGroupsArePositions()
    ensures forall g, i :: 0 <= g < |FEATURE_GROUPS| && 0 <= i < |FEATURE_GROUPS[g]| ==> FEATURE_GROUPS[g][i] < FEATURES
    ensures |FEATURE_GROUPS| == 7
  {
  }

  ghost predicate AtFeatures(at: seq<nat>) { forall i :: 0 <= i < |at| ==> at[i] < FEATURES }

  /** One record's error per group. */
  function GroupErrors(row: Row): (r: Row)
    requires |row| == FEATURES
    ensures |r| == 7
    ensures forall g :: 0 <= g < 7 ==> AtFeatures(FEATURE_GROUPS[g]) && r[g] == SumAt(row, FEATURE_GROUPS[g])
  {
    FeatureGroupsArePositions();
    [SumAt(row, FEATURE_GROUPS[0]), SumAt(row, FEATURE_GROUPS[1]), SumAt(row, FEATURE_GROUPS[2]),
     SumAt(row, FEATURE_GROUPS[3]), SumAt(row, FEATURE_GROUPS[4]), SumAt(row, FEATURE_GROUPS[5]),
     SumAt(row, FEATURE_GROUPS[6])]
  }

  function AllGroupErrors(rows: seq<Row>): (r: seq<Row>)
    requires forall i :: 0 <= i < |rows| ==> |rows[i]| == FEATURES
    ensures |r| == |rows| && forall i :: 0 <= i < |rows| ==> r[i] == GroupErrors(rows[i])
  {
    seq(|rows|, i requires 0 <= i < |rows| => GroupErrors(rows[i]))
  }

  function RecordTotal(row: Row): real
    requires |row| == FEATURES
  {
    Sum(GroupErrors(row))
  }

  lemma SumOfSeven(v: seq<real>)
    requires |v| == 7
    ensures Sum(v) == v[0] + v[1] + v[2] + v[3] + v[4] + v[5] + v[6]
  {
    assert Sum(v[7..]) == 0.0;
    assert v[6..][1..] == v[7..] && v[5..][1..] == v[6..] && v[4..][1..] == v[5..] && v[3..][1..] == v[4..];
    assert v[2..][1..] == v[3..] && v[1..][1..] == v[2..];
    assert Sum(v[6..]) == v[6];
    assert Sum(v[5..]) == v[5] + Sum(v[6..]);
    assert Sum(v[4..]) == v[4] + Sum(v[5..]);
    assert Sum(v[3..]) == v[3] + Sum(v[4..]);
    assert Sum(v[2..]) == v[2] + Sum(v[3..]);
    assert Sum(v[1..]) == v[1] + Sum(v[2..]);
  }

  /** Read end to end, the groups are the fourteen features, each once. */
  lemma GroupsPartitionFeatures()
    ensures FEATURE_GROUPS[0] + FEATURE_GROUPS[1] + FEATURE_GROUPS[2] + FEATURE_GROUPS[3] + FEATURE_GROUPS[4]
            + FEATURE_GROUPS[5] + FEATURE_GROUPS[6] == Upward(0, FEATURES)
    ensures |FEATURE_GROUPS[0]| == |FEATURE_GROUPS[5]| == 1 && |FEATURE_GROUPS[6]| == 4
    ensures |FEATURE_GROUPS[1]| == |FEATURE_GROUPS[2]| == |FEATURE_GROUPS[3]| == |FEATURE_GROUPS[4]| == 2
  {
  }

  /** A record's group errors add up to its features' errors. */
  lemma RecordTotalIsRowSum(row: Row)
    requires |row| == FEATURES
    ensures RecordTotal(row) == Sum(row)
  {
    FeatureGroupsArePositions();
    GroupsPartitionFeatures();
    var g := FEATURE_GROUPS;
    SumOfSeven(GroupErrors(row));
    SumAtConcat(row, g[0], g[1]);
    SumAtConcat(row, g[0] + g[1], g[2]);
    SumAtConcat(row, g[0] + g[1] + g[2], g[3]);
    SumAtConcat(row, g[0] + g[1] + g[2] + g[3], g[4]);
    SumAtConcat(row, g[0] + g[1] + g[2] + g[3] + g[4], g[5]);
    SumAtConcat(row, g[0] + g[1] + g[2] + g[3] + g[4] + g[5], g[6]);
    SumAtUpward(row, 0);
    assert row[0..] == row;
  }

  lemma GroupErrorsPlus(a: Row, b: Row)
    requires |a| == |b| == FEATURES
    ensures GroupErrors(Plus(a, b)) == Plus(GroupErrors(a), GroupErrors(b))
  {
    FeatureGroupsArePositions();
    forall k | 0 <= k < 7 ensures GroupErrors(Plus(a, b))[k] == GroupErrors(a)[k] + GroupErrors(b)[k] {
      SumAtPlus(a, b, FEATURE_GROUPS[k]);
    }
  }

  lemma {:induction false} ZeroGroups(v: Row)
    requires |v| == FEATURES && forall i :: 0 <= i < |v| ==> v[i] == 0.0
    ensures forall k :: 0 <= k < 7 ==> GroupErrors(v)[k] == 0.0
  {
    FeatureGroupsArePositions();
    forall k | 0 <= k < 7 ensures GroupErrors(v)[k] == 0.0 {
      ZeroSumAt(v, FEATURE_GROUPS[k]);
    }
  }

  lemma {:induction false} ZeroSumAt(v: Row, at: seq<nat>)
    requires (forall i :: 0 <= i < |v| ==> v[i] == 0.0) && forall i :: 0 <= i < |at| ==> at[i] < |v|
    ensures SumAt(v, at) == 0.0
  {
    if at != [] { ZeroSumAt(v, at[1..]); }
  }

  /** Summing records and grouping features commute: a group's sum is the sum of its features' sums. */
  lemma {:induction false} GroupSumsAreFeatureSums(rows: seq<Row>)
    requires Matrix(rows)
    ensures ColumnSums(AllGroupErrors(rows), 7) == GroupErrors(ColumnSums(rows, FEATURES))
  {
    if rows == [] {
      ZeroGroups(ColumnSums(rows, FEATURES));
    } else {
      GroupSumsAreFeatureSums(rows[1..]);
      assert AllGroupErrors(rows)[1..] == AllGroupErrors(rows[1..]);
      GroupErrorsPlus(rows[0], ColumnSums(rows[1..], FEATURES));
    }
  }

  // ----- Dominance -----

  function Max(v: seq<real>): (m: real)
    requires v != []
    ensures m in v && forall i :: 0 <= i < |v| ==> v[i] <= m
  {
    if |v| == 1 then v[0] else
      var m := Max(v[1..]);
      assert v == [v[0]] + v[1..];
      if v[0] >= m then v[0] else m
  }

  /** Which groups attain the record's largest error; none when the record has no error. */
  predicate Dominant(row: Row, g: nat)
    requires |row| == FEATURES && g < 7
  {
    RecordTotal(row) > 0.0 && GroupErrors(row)[g] == Max(GroupErrors(row))
  }

  function Multiplicity(row: Row): nat
    requires |row| == FEATURES
  {
    One(Dominant(row, 0)) + One(Dominant(row, 1)) + One(Dominant(row, 2)) + One(Dominant(row, 3))
    + One(Dominant(row, 4)) + One(Dominant(row, 5)) + One(Dominant(row, 6))
  }

  function CountWhere(rows: seq<Row>, p: Row -> bool): nat {
    if rows == [] then 0 else One(p(rows[0])) + CountWhere(rows[1..], p)
  }

  predicate UniquelyDominant(row: Row, g: nat)
    requires g < 7
  {
    |row| == FEATURES && Dominant(row, g) && Multiplicity(row) == 1
  }

  function UniqueCount(rows: seq<Row>, g: nat): nat
    requires g < 7
  {
    CountWhere(rows, row => UniquelyDominant(row, g))
  }

  function TieInclusiveCount(rows: seq<Row>, g: nat): nat
    requires g < 7
  {
    CountWhere(rows, row => |row| == FEATURES && Dominant(row, g))
  }

  function TiedCount(rows: seq<Row>): nat {
    CountWhere(rows, (row: Row) => |row| == FEATURES && Multiplicity(row) > 1)
  }

  function ZeroCount(rows: seq<Row>): nat {
    CountWhere(rows, (row: Row) => |row| == FEATURES && !(RecordTotal(row) > 0.0))
  }

  lemma MaximumIsAttained(row: Row)
    requires |row| == FEATURES
    ensures RecordTotal(row) > 0.0 <==> Multiplicity(row) > 0
  {
    var v := GroupErrors(row);
    var g :| 0 <= g < |v| && v[g] == Max(v);
    assert RecordTotal(row) > 0.0 ==> Dominant(row, g);
  }

  /** Every record is counted once: under its one dominant group, as tied, or as without error. */
  lemma {:induction false} DominanceAccountsForEveryRecord(rows: seq<Row>)
    requires Matrix(rows)
    ensures UniqueCount(rows, 0) + UniqueCount(rows, 1) + UniqueCount(rows, 2) + UniqueCount(rows, 3) + UniqueCount(rows, 4)
            + UniqueCount(rows, 5) + UniqueCount(rows, 6) + TiedCount(rows) + ZeroCount(rows) == |rows|
  {
    if rows != [] {
      DominanceAccountsForEveryRecord(rows[1..]);
      MaximumIsAttained(rows[0]);
    }
  }

  // ----- The cohort report -----

  function Column(rows: seq<Row>, i: nat): (c: seq<real>)
    requires forall k :: 0 <= k < |rows| ==> i < |rows[k]|
    ensures |c| == |rows| && forall k :: 0 <= k < |rows| ==> c[k] == rows[k][i]
  {
    if rows == [] then [] else [rows[0][i]] + Column(rows[1..], i)
  }

  lemma {:induction false} ColumnSumsAt(rows: seq<Row>, width: nat, i: nat)
    requires i < width && forall k :: 0 <= k < |rows| ==> |rows[k]| == width
    ensures ColumnSums(rows, width)[i] == Sum(Column(rows, i))
  {
    if rows != [] {
      ColumnSumsAt(rows[1..], width, i);
      assert Column(rows, i)[1..] == Column(rows[1..], i);
    }
  }

  function Fraction(part: real, total: real): Option<real> {
    if total > 0.0 then Some(part / total) else None
  }

  datatype FeatureLine = FeatureLine(index: nat, sum: real, fraction: Option<real>)
  datatype GroupLine = GroupLine(
    sum: real,
    fraction: Option<real>,
    dominantIncludingTies: nat,
    uniqueDominant: nat,
    concentration: seq<Concentration.Line>)
  datatype Cohort = Cohort(
    recordCount: nat,
    scores: seq<Concentration.Line>,
    total: real,
    features: seq<FeatureLine>,
    groups: seq<GroupLine>,
    tied: nat,
    zero: nat)

  function FeatureSums(r: Cohort): seq<real> { seq(|r.features|, i requires 0 <= i < |r.features| => r.features[i].sum) }
  function GroupTotals(r: Cohort): seq<real> { seq(|r.groups|, i requires 0 <= i < |r.groups| => r.groups[i].sum) }
  function UniqueTotal(groups: seq<GroupLine>): nat {
    if groups == [] then 0 else groups[0].uniqueDominant + UniqueTotal(groups[1..])
  }

  method FeatureLines(sums: Row, total: real) returns (lines: seq<FeatureLine>)
    ensures |lines| == |sums|
    ensures forall k :: 0 <= k < |sums| ==> lines[k] == FeatureLine(k + 1, sums[k], Fraction(sums[k], total))
  {
    lines := [];
    for i := 0 to |sums|
      invariant |lines| == i
      invariant forall k :: 0 <= k < i ==> lines[k] == FeatureLine(k + 1, sums[k], Fraction(sums[k], total))
    {
      lines := lines + [FeatureLine(i + 1, sums[i], Fraction(sums[i], total))];
    }
  }

  /** The errors of one group, record by record. */
  function GroupColumn(rows: seq<Row>, g: nat): (c: seq<real>)
    requires Matrix(rows) && g < 7
    ensures |c| == |rows|
  {
    Column(AllGroupErrors(rows), g)
  }

  function LineOfGroup(rows: seq<Row>, sum: real, total: real, product: Concentration.Product, g: nat): GroupLine
    requires Matrix(rows) && g < 7
  {
    GroupLine(sum, Fraction(sum, total), TieInclusiveCount(rows, g), UniqueCount(rows, g),
      Concentration.Lines(GroupColumn(rows, g), product))
  }

  /** No group of any record has a negative error. */
  ghost predicate GroupsNonNegative(rows: seq<Row>)
    requires Matrix(rows)
  {
    forall g :: 0 <= g < 7 ==> NonNegative(GroupColumn(rows, g))
  }

  lemma GroupColumnSum(rows: seq<Row>, g: nat)
    requires Matrix(rows) && g < 7
    ensures Sum(GroupColumn(rows, g)) == GroupErrors(ColumnSums(rows, FEATURES))[g]
  {
    GroupSumsAreFeatureSums(rows);
    ColumnSumsAt(AllGroupErrors(rows), 7, g);
  }

  function GroupReport(rows: seq<Row>, total: real, product: Concentration.Product): (lines: seq<GroupLine>)
    requires Matrix(rows)
    ensures |lines| == 7
  {
    var sums := GroupErrors(ColumnSums(rows, FEATURES));
    seq(7, g requires 0 <= g < 7 => LineOfGroup(rows, sums[g], total, product, g))
  }

  lemma GroupReportAt(rows: seq<Row>, total: real, product: Concentration.Product, g: nat)
    requires Matrix(rows) && g < 7
    ensures GroupReport(rows, total, product)[g] == LineOfGroup(rows, Sum(GroupColumn(rows, g)), total, product, g)
  {
    GroupColumnSum(rows, g);
  }

  /** The loop over groups; None is the error of the first group with a negative record. */
  method GroupLines(rows: seq<Row>, total: real, product: Concentration.Product) returns (lines: Option<seq<GroupLine>>)
    requires Matrix(rows)
    ensures lines == if GroupsNonNegative(rows) then Some(GroupReport(rows, total, product)) else None
  {
    var result: seq<GroupLine> := [];
    ghost var expected := GroupReport(rows, total, product);
    for g := 0 to 7
      invariant result == expected[..g] && forall k :: 0 <= k < g ==> NonNegative(GroupColumn(rows, k))
    {
      var values := GroupColumn(rows, g);
      var concentration := Concentration.Concentrate(values, product);
      if concentration.None? { return None; }
      GroupReportAt(rows, total, product, g);
      result := result + [GroupLine(Sum(values), Fraction(Sum(values), total), TieInclusiveCount(rows, g), UniqueCount(rows, g),
        concentration.value)];
    }
    assert expected[..7] == expected;
    return Some(result);
  }

  /** What a cohort report promises about the selected rows. */
  ghost predicate Reports(r: Cohort, scores: seq<real>, rows: seq<Row>, product: Concentration.Product)
    requires Matrix(rows)
  {
    var sums := ColumnSums(rows, FEATURES);
    && r.recordCount == |rows| && r.scores == Concentration.Lines(scores, product)
    && FeatureSums(r) == sums && GroupTotals(r) == GroupErrors(sums)
    && r.total == Sum(FeatureSums(r)) == Sum(GroupTotals(r))
    && (forall i :: 0 <= i < |r.features| ==> r.features[i] == FeatureLine(i + 1, sums[i], Fraction(sums[i], r.total)))
    && r.groups == GroupReport(rows, r.total, product)
    && UniqueTotal(r.groups) + r.tied + r.zero == r.recordCount
  }

  lemma ReportConserves(r: Cohort, scores: seq<real>, rows: seq<Row>, product: Concentration.Product)
    requires Matrix(rows) && |r.features| == FEATURES && |r.groups| == 7
    requires r.recordCount == |rows| && r.scores == Concentration.Lines(scores, product)
    requires r.tied == TiedCount(rows) && r.zero == ZeroCount(rows)
    requires r.total == Sum(ColumnSums(rows, FEATURES))
    requires forall i :: 0 <= i < FEATURES ==>
      r.features[i] == FeatureLine(i + 1, ColumnSums(rows, FEATURES)[i], Fraction(ColumnSums(rows, FEATURES)[i], r.total))
    requires r.groups == GroupReport(rows, r.total, product)
    ensures Reports(r, scores, rows, product)
  {
    var sums := ColumnSums(rows, FEATURES);
    RecordTotalIsRowSum(sums);
    GroupReportFields(rows, r.total, product);
    CountsReported(r, rows);
    SumsReported(r, sums);
  }

  lemma GroupReportFields(rows: seq<Row>, total: real, product: Concentration.Product)
    requires Matrix(rows)
    ensures forall g :: 0 <= g < 7 ==>
      && GroupReport(rows, total, product)[g].sum == GroupErrors(ColumnSums(rows, FEATURES))[g]
      && GroupReport(rows, total, product)[g].uniqueDominant == UniqueCount(rows, g)
  {
  }

  lemma SumsReported(r: Cohort, sums: Row)
    requires |r.features| == |sums| == FEATURES && |r.groups| == 7
    requires forall i :: 0 <= i < FEATURES ==> r.features[i].sum == sums[i]
    requires forall g :: 0 <= g < 7 ==> r.groups[g].sum == GroupErrors(sums)[g]
    ensures FeatureSums(r) == sums && GroupTotals(r) == GroupErrors(sums)
  {
  }

  lemma CountsReported(r: Cohort, rows: seq<Row>)
    requires Matrix(rows) && |r.groups| == 7 && r.tied == TiedCount(rows) && r.zero == ZeroCount(rows)
    requires forall g :: 0 <= g < 7 ==> r.groups[g].uniqueDominant == UniqueCount(rows, g)
    ensures UniqueTotal(r.groups) + r.tied + r.zero == |rows|
  {
    DominanceAccountsForEveryRecord(rows);
    UniqueTotalOfSeven(r.groups);
  }

  ghost predicate AlignedRecords(mask: seq<bool>, scores: seq<real>, squared: seq<Row>) {
    |mask| == |scores| == |squared| && Matrix(squared)
  }

  /** aggregate_cohort; None is its alignment error, or the concentration's error for a selected score or a
      selected record's group error that is negative. */
  method AggregateCohort(mask: seq<bool>, scores: seq<real>, squared: seq<Row>, product: Concentration.Product)
      returns (result: Option<Cohort>)
    ensures AlignedRecords(mask, scores, squared) ==> Matrix(Select(mask, squared))
    ensures result.Some? <==>
      && AlignedRecords(mask, scores, squared)
      && NonNegative(Select(mask, scores)) && GroupsNonNegative(Select(mask, squared))
    ensures result.Some? ==> Reports(result.value, Select(mask, scores), Select(mask, squared), product)
    ensures result.Some? ==> result.value.recordCount == CountTrue(mask)
  {
    if |mask| != |scores| || |squared| != |scores| || !Matrix(squared) { return None; }
    SelectKeepsRows(mask, squared);
    var rows := Select(mask, squared);
    var sums := ColumnSums(rows, FEATURES);
    var total := Sum(sums);
    var features := FeatureLines(sums, total);
    var groups := GroupLines(rows, total, product);
    if groups.None? { return None; }
    var scoreLines := Concentration.Concentrate(Select(mask, scores), product);
    if scoreLines.None? { return None; }
    var r := Cohort(|rows|, scoreLines.value, total, features, groups.value, TiedCount(rows), ZeroCount(rows));
    ReportConserves(r, Select(mask, scores), rows, product);
    return Some(r);
  }

  lemma UniqueTotalOfSeven(g: seq<GroupLine>)
    requires |g| == 7
    ensures UniqueTotal(g) == g[0].uniqueDominant + g[1].uniqueDominant + g[2].uniqueDominant + g[3].uniqueDominant
                              + g[4].uniqueDominant + g[5].uniqueDominant + g[6].uniqueDominant
  {
    assert UniqueTotal(g[7..]) == 0;
    assert g[6..][1..] == g[7..] && g[5..][1..] == g[6..] && g[4..][1..] == g[5..] && g[3..][1..] == g[4..];
    assert g[2..][1..] == g[3..] && g[1..][1..] == g[2..];
    assert UniqueTotal(g[6..]) == g[6].uniqueDominant;
    assert UniqueTotal(g[5..]) == g[5].uniqueDominant + UniqueTotal(g[6..]);
    assert UniqueTotal(g[4..]) == g[4].uniqueDominant + UniqueTotal(g[5..]);
    assert UniqueTotal(g[3..]) == g[3].uniqueDominant + UniqueTotal(g[4..]);
    assert UniqueTotal(g[2..]) == g[2].uniqueDominant + UniqueTotal(g[3..]);
    assert UniqueTotal(g[1..]) == g[1].uniqueDominant + UniqueTotal(g[2..]);
  }

  /** When there is any error, the features' fractions and the groups' fractions both add up to one. */
  lemma FractionsAddToOne(rows: seq<Row>)
    requires Matrix(rows) && Sum(ColumnSums(rows, FEATURES)) > 0.0
    ensures var total := Sum(ColumnSums(rows, FEATURES));
      && Sum(Scaled(ColumnSums(rows, FEATURES), total)) == 1.0
      && Sum(Scaled(ColumnSums(AllGroupErrors(rows), 7), total)) == 1.0
  {
    var sums := ColumnSums(rows, FEATURES);
    SumScaled(sums, Sum(sums));
    SelfQuotient(Sum(sums));
    GroupSumsAreFeatureSums(rows);
    RecordTotalIsRowSum(sums);
    SumScaled(ColumnSums(AllGroupErrors(rows), 7), Sum(sums));
  }

  /** The shares of a record with error are between zero and one and add up to one. */
  lemma SharesOfARecord(row: Row)
    requires |row| == FEATURES && NonNegative(row) && RecordTotal(row) > 0.0
    ensures var shares := Scaled(GroupErrors(row), RecordTotal(row));
      Sum(shares) == 1.0 && forall g :: 0 <= g < |shares| ==> 0.0 <= shares[g] <= 1.0
  {
    var v := GroupErrors(row);
    FeatureGroupsArePositions();
    forall g | 0 <= g < 7 ensures v[g] >= 0.0 {
      NonNegativeSumAt(row, FEATURE_GROUPS[g]);
    }
    SumNonNegative(v);
    SumScaled(v, Sum(v));
    SelfQuotient(Sum(v));
    forall g | 0 <= g < |v| ensures 0.0 <= v[g] / Sum(v) <= 1.0 {
      PartOfWhole(v[g], Sum(v));
    }
  }

  lemma SelfQuotient(a: real)
    requires a != 0.0
    ensures a / a == 1.0
  {
  }

  lemma PartOfWhole(a: real, b: real)
    requires 0.0 <= a <= b && b > 0.0
    ensures 0.0 <= a / b <= 1.0
  {
  }

  lemma {:induction false} NonNegativeSumAt(v: Row, at: seq<nat>)
    requires NonNegative(v) && forall i :: 0 <= i < |at| ==> at[i] < |v|
    ensures SumAt(v, at) >= 0.0
  {
    if at != [] { NonNegativeSumAt(v, at[1..]); }
  }

  /** Squares are never the reason for the concentration error: only a negative score can be. */
  lemma {:induction false} SquaresGiveNonNegativeGroups(rows: seq<Row>)
    requires Matrix(rows) && forall i :: 0 <= i < |rows| ==> NonNegative(rows[i])
    ensures GroupsNonNegative(rows)
  {
    if rows != [] {
      SquaresGiveNonNegativeGroups(rows[1..]);
      FeatureGroupsArePositions();
      assert AllGroupErrors(rows)[1..] == AllGroupErrors(rows[1..]);
      forall g | 0 <= g < 7 ensures NonNegative(GroupColumn(rows, g)) {
        NonNegativeSumAt(rows[0], FEATURE_GROUPS[g]);
        assert GroupColumn(rows, g) == [GroupErrors(rows[0])[g]] + GroupColumn(rows[1..], g);
      }
    }
  }

  // ----- Which records are selected and counted -----

  /** The selected rows are the masked ones, in order. */
  lemma {:induction false} SelectIs<T>(mask: seq<bool>, rows: seq<T>, i: nat)
    requires |mask| == |rows| && i < |mask| && mask[i]
    ensures CountTrue(mask[..i]) < |Select(mask, rows)| == CountTrue(mask)
    ensures Select(mask, rows)[CountTrue(mask[..i])] == rows[i]
  {
    SelectSize(mask[1..], rows[1..]);
    if i > 0 {
      SelectIs(mask[1..], rows[1..], i - 1);
      assert mask[..i][1..] == mask[1..][..i - 1] && mask[..i][0] == mask[0];
    }
  }

  lemma {:induction false} SelectSize<T>(mask: seq<bool>, rows: seq<T>)
    requires |mask| == |rows|
    ensures |Select(mask, rows)| == CountTrue(mask)
  {
    if mask != [] { SelectSize(mask[1..], rows[1..]); }
  }

  /** A group dominates when the record has error and no group has more. */
  lemma DominantIs(row: Row, g: nat)
    requires |row| == FEATURES && g < 7
    ensures Dominant(row, g) <==>
      Sum(row) > 0.0 && forall h :: 0 <= h < 7 ==> SumAtGroup(row, h) <= SumAtGroup(row, g)
  {
    RecordTotalIsRowSum(row);
    var v := GroupErrors(row);
    assert forall h :: 0 <= h < 7 ==> v[h] == SumAtGroup(row, h);
    if forall h :: 0 <= h < 7 ==> v[h] <= v[g] {
      var h :| 0 <= h < |v| && v[h] == Max(v);
      assert v[h] <= v[g];
    }
  }

  function SumAtGroup(row: Row, g: nat): real
    requires |row| == FEATURES && g < 7
  {
    FeatureGroupsArePositions();
    SumAt(row, FEATURE_GROUPS[g])
  }

  /** It dominates alone when every other group has less. */
  lemma UniquelyDominantIs(row: Row, g: nat)
    requires |row| == FEATURES && g < 7
    ensures UniquelyDominant(row, g) <==>
      Sum(row) > 0.0 && forall h :: 0 <= h < 7 && h != g ==> SumAtGroup(row, h) < SumAtGroup(row, g)
  {
    forall h | 0 <= h < 7 ensures Dominant(row, h) <==>
      Sum(row) > 0.0 && forall k :: 0 <= k < 7 ==> SumAtGroup(row, k) <= SumAtGroup(row, h)
    {
      DominantIs(row, h);
    }
    if Dominant(row, g) { MultiplicityIsOne(row, g); }
  }

  lemma MultiplicityIsOne(row: Row, g: nat)
    requires |row| == FEATURES && g < 7 && Dominant(row, g)
    ensures Multiplicity(row) == 1 <==> forall h :: 0 <= h < 7 && h != g ==> !Dominant(row, h)
  {
  }

  /** A count over records is the number of records that satisfy it. */
  lemma {:induction false} CountWhereIs(rows: seq<Row>, p: Row -> bool)
    ensures CountWhere(rows, p) == |Where(rows, p)|
  {
    if rows != [] {
      CountWhereIs(rows[1..], p);
      var later := Later(Where(rows[1..], p));
      SameCount(Where(rows[1..], p), later);
      WhereStep(rows, p);
      if p(rows[0]) { assert 0 !in later; }
    }
  }

  ghost function Later(a: set<nat>): set<nat> { set k | k in a :: k + 1 }

  lemma WhereStep(rows: seq<Row>, p: Row -> bool)
    requires rows != []
    ensures Where(rows, p) == Later(Where(rows[1..], p)) + (if p(rows[0]) then {0} else {})
  {
    forall k | k in Where(rows, p) && k > 0 ensures k in Later(Where(rows[1..], p)) {
      assert k - 1 in Where(rows[1..], p);
    }
  }

  ghost function Where(rows: seq<Row>, p: Row -> bool): set<nat> { set k: nat | k < |rows| && p(rows[k]) }

  lemma {:induction false} SameCount(a: set<nat>, b: set<nat>)
    requires b == Later(a)
    ensures |a| == |b|
  {
    if a != {} {
      var x :| x in a;
      var c := Later(a - {x});
      forall y | y in b - {x + 1} ensures y in c {
        var k :| k in a && y == k + 1;
        assert k in a - {x};
      }
      assert c == b - {x + 1};
      SameCount(a - {x}, c);
    }
  }

  /** A fraction is reported when the total is positive, and times the total it is the part. */
  lemma FractionIs(part: real, total: real)
    ensures Fraction(part, total).Some? <==> total > 0.0
    ensures Fraction(part, total).Some? ==> Times(Fraction(part, total).value, total) == part
  {
  }
}
