/**
 * Training-data preparation of the two offline scripts: the four-way status label
 * and the seven per-row features derived from the stored sensor rows. The column
 * arithmetic is pandas/numpy arithmetic on 64-bit floats, so missing values (NaN)
 * and infinities are modelled explicitly; finite values are exact reals.
 */
module Analyze {
  import opened Common

  /** A float column cell: a finite value, NaN, or an infinity. */
  datatype Float = Num(v: real) | NaN | PosInf | NegInf

  /** One stored row; `None` is a SQL NULL, which pandas reads as NaN. */
  datatype Row = Row(
    createdAt: real,                  // seconds
    timeUntilADanger: Option<real>,   // time_until_a_danger
    mucnuoca: Option<real>,
    mucnuocb: Option<real>,
    luuluong: Option<real>)

  /** One row of the frame `create_features_from_db` returns. */
  datatype FeatureRow = FeatureRow(
    createdAt: real,
    timeUntilADanger: Float,
    mucnuoca: Float,
    mucnuocb: Float,
    luuluong: Float,
    timeDiff: Float,
    bRateOfChange: Float,
    flowRateOfChange: Float,
    abDiff: Float,
    isRainingNow: int)

  // ---------------------------------------------------------------------------
  // IEEE arithmetic on cells

  function FromOption(x: Option<real>): Float {
    if x.Some? then Num(x.value) else NaN
  }

  function Sub(x: Float, y: Float): Float {
    match (x, y)
    case (Num(a), Num(b)) => Num(a - b)
    case (NaN, _) => NaN
    case (_, NaN) => NaN
    case (PosInf, PosInf) => NaN
    case (NegInf, NegInf) => NaN
    case (PosInf, _) => PosInf
    case (NegInf, _) => NegInf
    case (_, PosInf) => NegInf
    case (_, NegInf) => PosInf
  }

  /** Division; a nonzero value over zero is an infinity, 0/0 is NaN (zero is unsigned here). */
  function Div(x: Float, y: Float): Float {
    match (x, y)
    case (Num(a), Num(b)) =>
      if b != 0.0 then Num(a / b)
      else if a == 0.0 then NaN
      else if a > 0.0 then PosInf else NegInf
    case (NaN, _) => NaN
    case (_, NaN) => NaN
    case (Num(_), _) => Num(0.0)
    case (_, Num(b)) =>
      if (b >= 0.0) == x.PosInf? then PosInf else NegInf
    case (_, _) => NaN
  }

  /** `x > c` on a float: false for NaN. */
  predicate Gt(x: Float, c: real) {
    match x
    case Num(a) => a > c
    case PosInf => true
    case _ => false
  }

  /** `x <= c` on a float: false for NaN. */
  predicate Le(x: Float, c: real) {
    match x
    case Num(a) => a <= c
    case NegInf => true
    case _ => false
  }

  /** `fillna(0)` on one cell. */
  function FillNa(x: Float): (r: Float)
    ensures !r.NaN?
    ensures x.Num? ==> r == x
  {
    if x.NaN? then Num(0.0) else x
  }

  /** `replace([np.inf, -np.inf], 0)` followed by `fillna(0)` on one cell. */
  function Clean(x: Float): (r: Float)
    ensures r.Num?
    ensures x.Num? ==> r == x
    ensures !x.Num? ==> r == Num(0.0)
  {
    FillNa(if x.PosInf? || x.NegInf? then Num(0.0) else x)
  }

  // ---------------------------------------------------------------------------
  // create_target_labels

  /**
   * The `np.select` decision table of `create_target_labels` for one row: the first
   * matching condition picks the label, the default is the normal status.
   */
  function TargetLabel(timeUntilADanger: Float, mucnuoca: Float): (status: string)
    ensures IsStatus(status)
  {
    var countdown := FillNa(timeUntilADanger);
    var a := FillNa(mucnuoca);
    if Gt(countdown, 0.0) && Le(countdown, 30.0) then Danger
    else if Gt(countdown, 0.0) && Le(countdown, 60.0) then High
    else if Gt(countdown, 60.0) then Warning
    else if countdown == Num(0.0) && Gt(a, 28.0) then Danger
    else if countdown == Num(0.0) && Gt(a, 25.0) then High
    else if countdown == Num(0.0) && Gt(a, 20.0) then Warning
    else Normal
  }

  /** A countdown in (0, 30], (30, 60] or above 60 decides the label whatever level A is. */
  lemma CountdownTiers(c: real, a: Float)
    ensures 0.0 < c <= 30.0 ==> TargetLabel(Num(c), a) == Danger
    ensures 30.0 < c <= 60.0 ==> TargetLabel(Num(c), a) == High
    ensures 60.0 < c ==> TargetLabel(Num(c), a) == Warning
  {
  }

  /**
   * With a zero countdown (a missing countdown counts as zero) level A decides, with
   * strict cutoffs 28 / 25 / 20 and a missing level counted as zero; the first
   * matching condition wins, and a level of at most 20 gives the normal status.
   */
  lemma ZeroCountdownTiers(countdown: Float, a: real)
    requires countdown == Num(0.0) || countdown == NaN
    ensures a > 28.0 ==> TargetLabel(countdown, Num(a)) == Danger
    ensures 25.0 < a <= 28.0 ==> TargetLabel(countdown, Num(a)) == High
    ensures 20.0 < a <= 25.0 ==> TargetLabel(countdown, Num(a)) == Warning
    ensures a <= 20.0 ==> TargetLabel(countdown, Num(a)) == Normal
    ensures TargetLabel(countdown, NaN) == Normal
  {
  }

  /** A negative countdown gives the default label, whatever level A is. */
  lemma NegativeCountdownIsNormal(c: real, a: Float)
    requires c < 0.0
    ensures TargetLabel(Num(c), a) == Normal
  {
  }

  /** `create_target_labels`: one label per row, each one of the four statuses. */
  function CreateTargetLabels(df: seq<FeatureRow>): (labels: seq<string>)
    ensures |labels| == |df|
    ensures forall i :: 0 <= i < |df| ==> IsStatus(labels[i])
    ensures forall i :: 0 <= i < |df| ==>
      labels[i] == TargetLabel(df[i].timeUntilADanger, df[i].mucnuoca)
  {
    seq(|df|, i requires 0 <= i < |df| => TargetLabel(df[i].timeUntilADanger, df[i].mucnuoca))
  }

  // ---------------------------------------------------------------------------
  // sort_values(by='created_at')

  predicate SortedByCreatedAt(rows: seq<Row>) {
    forall i, j :: 0 <= i < j < |rows| ==> rows[i].createdAt <= rows[j].createdAt
  }

  /** A row no later than the first of a sorted series can go in front of it. */
  lemma PrependSorted(h: Row, t: seq<Row>)
    requires SortedByCreatedAt(t) && (t == [] || h.createdAt <= t[0].createdAt)
    ensures SortedByCreatedAt([h] + t)
  {
  }

  /** Places `r` before the first row of `sorted` that is not earlier than it. */
  function Insert(r: Row, sorted: seq<Row>): (res: seq<Row>)
    ensures |res| == |sorted| + 1
    ensures res[0] == r || (sorted != [] && res[0] == sorted[0])
  {
    if sorted == [] || r.createdAt <= sorted[0].createdAt then [r] + sorted
    else [sorted[0]] + Insert(r, sorted[1..])
  }

  lemma {:induction false} InsertSorted(r: Row, sorted: seq<Row>)
    requires SortedByCreatedAt(sorted)
    ensures SortedByCreatedAt(Insert(r, sorted))
  {
    if sorted == [] || r.createdAt <= sorted[0].createdAt {
      PrependSorted(r, sorted);
    } else {
      InsertSorted(r, sorted[1..]);
      PrependSorted(sorted[0], Insert(r, sorted[1..]));
    }
  }

  lemma {:induction false} InsertPermutes(r: Row, sorted: seq<Row>)
    ensures multiset(Insert(r, sorted)) == multiset(sorted) + multiset{r}
  {
    if sorted != [] && r.createdAt > sorted[0].createdAt {
      InsertPermutes(r, sorted[1..]);
      assert sorted == [sorted[0]] + sorted[1..];
    }
  }

  /** `df.sort_values(by='created_at')`: the same rows, ordered by creation time. */
  function SortByCreatedAt(rows: seq<Row>): (sorted: seq<Row>)
    ensures SortedByCreatedAt(sorted)
    ensures multiset(sorted) == multiset(rows)
    ensures |sorted| == |rows|
  {
    if rows == [] then []
    else
      var rest := SortByCreatedAt(rows[1..]);
      InsertSorted(rows[0], rest);
      InsertPermutes(rows[0], rest);
      assert rows == [rows[0]] + rows[1..];
      Insert(rows[0], rest)
  }

  // ---------------------------------------------------------------------------
  // create_features_from_db

  /** `Series.diff()`: NaN first, then each cell minus the one before it. */
  function Diff(col: seq<Float>): seq<Float> {
    seq(|col|, i requires 0 <= i < |col| => if i == 0 then NaN else Sub(col[i], col[i - 1]))
  }

  /** The sum of the finite cells of a column. */
  function SumFinite(d: seq<Float>): real
    decreases |d|
  {
    if d == [] then 0.0
    else SumFinite(d[..|d| - 1]) + (if d[|d| - 1].Num? then d[|d| - 1].v else 0.0)
  }

  /**
   * On a finite column the differences add back up to the column: the first cell plus the
   * differences up to row i is the cell of row i.
   */
  lemma {:induction false} DiffTelescopes(col: seq<Float>, i: nat)
    requires i < |col| && forall k :: 0 <= k <= i ==> col[k].Num?
    ensures col[0].v + SumFinite(Diff(col)[1..i + 1]) == col[i].v
    decreases i
  {
    if i > 0 {
      DiffTelescopes(col, i - 1);
      var d := Diff(col);
      assert d[1..i + 1][..i - 1] == d[1..i];
      assert d[i] == Num(col[i].v - col[i - 1].v);
    }
  }

  /** The `created_at` column, as seconds. */
  function CreatedCol(s: seq<Row>): seq<Float> {
    seq(|s|, i requires 0 <= i < |s| => Num(s[i].createdAt))
  }

  /** The `mucnuocb` column. */
  function BCol(s: seq<Row>): seq<Float> {
    seq(|s|, i requires 0 <= i < |s| => FromOption(s[i].mucnuocb))
  }

  /** The `luuluong` column. */
  function FlowCol(s: seq<Row>): seq<Float> {
    seq(|s|, i requires 0 <= i < |s| => FromOption(s[i].luuluong))
  }

  /** Row `i` of the feature frame built from the sorted rows `s`, with every column cleaned. */
  function FeatureOf(s: seq<Row>, i: nat): FeatureRow
    requires i < |s|
  {
    var timeDiff := FillNa(Diff(CreatedCol(s))[i]);          // .dt.total_seconds().fillna(0)
    FeatureRow(
      s[i].createdAt,
      Clean(FromOption(s[i].timeUntilADanger)),
      Clean(FromOption(s[i].mucnuoca)),
      Clean(FromOption(s[i].mucnuocb)),
      Clean(FromOption(s[i].luuluong)),
      Clean(timeDiff),
      Clean(Div(Diff(BCol(s))[i], timeDiff)),
      Clean(Div(Diff(FlowCol(s))[i], timeDiff)),
      Clean(Sub(FromOption(s[i].mucnuocb), FromOption(s[i].mucnuoca))),
      if s[i].timeUntilADanger.Some? && s[i].timeUntilADanger.value > 0.0 then 1 else 0)
  }

  /** `create_features_from_db`: sort by creation time, then derive the features column-wise. */
  function CreateFeatures(rows: seq<Row>): (df: seq<FeatureRow>)
    ensures |df| == |rows|
    ensures forall i :: 0 <= i < |rows| ==> df[i] == FeatureOf(SortByCreatedAt(rows), i)
  {
    var s := SortByCreatedAt(rows);
    seq(|s|, i requires 0 <= i < |s| => FeatureOf(s, i))
  }

  /** The rate of change between two consecutive rows, as the features define it. */
  function RateBetween(prev: Option<real>, cur: Option<real>, gap: real): real {
    if prev.Some? && cur.Some? && gap > 0.0 then (cur.value - prev.value) / gap else 0.0
  }

  /**
   * The feature rows come out in creation-time order and carry the sorted rows'
   * own values, with a missing level, flow or countdown replaced by zero.
   */
  lemma FeaturesFollowSortedRows(rows: seq<Row>, i: nat)
    requires i < |rows|
    ensures var s := SortByCreatedAt(rows); var f := CreateFeatures(rows)[i];
      && f.createdAt == s[i].createdAt
      && f.mucnuoca == Num(s[i].mucnuoca.GetOr(0.0))
      && f.mucnuocb == Num(s[i].mucnuocb.GetOr(0.0))
      && f.luuluong == Num(s[i].luuluong.GetOr(0.0))
      && f.timeUntilADanger == Num(s[i].timeUntilADanger.GetOr(0.0))
    ensures forall j :: 0 <= j < i ==> CreateFeatures(rows)[j].createdAt <= CreateFeatures(rows)[i].createdAt
  {
  }

  /**
   * Both rates are the difference over the time gap to the previous row when that
   * gap is positive and both values are present; they are 0 on the first row, on a
   * zero gap (where pandas produced an infinity or NaN) and next to a missing value.
   */
  lemma RatesAreDiffOverGap(rows: seq<Row>, i: nat)
    requires i < |rows|
    ensures var s := SortByCreatedAt(rows); var f := CreateFeatures(rows)[i];
      && (i == 0 ==> f.timeDiff == Num(0.0) && f.bRateOfChange == Num(0.0) && f.flowRateOfChange == Num(0.0))
      && (i > 0 ==>
            var gap := s[i].createdAt - s[i - 1].createdAt;
            && gap >= 0.0
            && f.timeDiff == Num(gap)
            && f.bRateOfChange == Num(RateBetween(s[i - 1].mucnuocb, s[i].mucnuocb, gap))
            && f.flowRateOfChange == Num(RateBetween(s[i - 1].luuluong, s[i].luuluong, gap)))
  {
    var s := SortByCreatedAt(rows);
    var f := FeatureOf(s, i);
    assert CreateFeatures(rows)[i] == f;
    var created, bs, flows := CreatedCol(s), BCol(s), FlowCol(s);
    if i == 0 {
      assert Diff(created)[0] == NaN && Diff(bs)[0] == NaN && Diff(flows)[0] == NaN;
    } else {
      var gap := s[i].createdAt - s[i - 1].createdAt;
      assert gap >= 0.0;
      assert Diff(created)[i] == Sub(Num(s[i].createdAt), Num(s[i - 1].createdAt)) == Num(gap);
      assert Diff(bs)[i] == Sub(FromOption(s[i].mucnuocb), FromOption(s[i - 1].mucnuocb));
      assert Diff(flows)[i] == Sub(FromOption(s[i].luuluong), FromOption(s[i - 1].luuluong));
      RateCell(s[i - 1].mucnuocb, s[i].mucnuocb, gap);
      RateCell(s[i - 1].luuluong, s[i].luuluong, gap);
    }
  }

  /** The IEEE pipeline for one rate cell equals the closed form `RateBetween`. */
  lemma RateCell(prev: Option<real>, cur: Option<real>, gap: real)
    requires gap >= 0.0
    ensures Clean(Div(Sub(FromOption(cur), FromOption(prev)), FillNa(Num(gap)))) == Num(RateBetween(prev, cur, gap))
  {
  }

  /** `ab_diff` is B minus A when both levels are present, and 0 when either is missing. */
  lemma AbDiffFeature(rows: seq<Row>, i: nat)
    requires i < |rows|
    ensures var s := SortByCreatedAt(rows); var f := CreateFeatures(rows)[i];
      f.abDiff == Num(AbDiffOf(s[i].mucnuoca, s[i].mucnuocb))
  {
    var s := SortByCreatedAt(rows);
    assert CreateFeatures(rows)[i] == FeatureOf(s, i);
    AbDiffCell(s[i].mucnuoca, s[i].mucnuocb);
  }

  /** B minus A when both levels are present, otherwise 0. */
  function AbDiffOf(a: Option<real>, b: Option<real>): real {
    if a.Some? && b.Some? then b.value - a.value else 0.0
  }

  lemma AbDiffCell(a: Option<real>, b: Option<real>)
    ensures Clean(Sub(FromOption(b), FromOption(a))) == Num(AbDiffOf(a, b))
  {
  }

  /** `is_raining_now` is 1 exactly when the countdown is present and positive, else 0. */
  lemma RainFeature(rows: seq<Row>, i: nat)
    requires i < |rows|
    ensures var s := SortByCreatedAt(rows); var f := CreateFeatures(rows)[i];
      && (f.isRainingNow == 0 || f.isRainingNow == 1)
      && (f.isRainingNow == 1 <==> s[i].timeUntilADanger.Some? && s[i].timeUntilADanger.value > 0.0)
  {
  }

  /** No NaN and no infinity is left in any float column of the feature frame. */
  lemma NoMissingOrInfiniteValues(rows: seq<Row>)
    ensures forall f :: f in CreateFeatures(rows) ==>
      && f.timeUntilADanger.Num? && f.mucnuoca.Num? && f.mucnuocb.Num? && f.luuluong.Num?
      && f.timeDiff.Num? && f.bRateOfChange.Num? && f.flowRateOfChange.Num? && f.abDiff.Num?
  {
  }

  // ---------------------------------------------------------------------------
  // The two training scripts

  /** The seven columns both scripts select as the model input `X`. */
  datatype Inputs = Inputs(
    mucnuoca: real,
    mucnuocb: real,
    luuluong: real,
    isRainingNow: int,
    bRateOfChange: real,
    flowRateOfChange: real,
    abDiff: real)

  /** `df_features[features]` for one row; every selected column is finite after cleaning. */
  function InputsOf(f: FeatureRow): Inputs
    requires f.mucnuoca.Num? && f.mucnuocb.Num? && f.luuluong.Num?
    requires f.bRateOfChange.Num? && f.flowRateOfChange.Num? && f.abDiff.Num?
  {
    Inputs(f.mucnuoca.v, f.mucnuocb.v, f.luuluong.v, f.isRainingNow,
           f.bRateOfChange.v, f.flowRateOfChange.v, f.abDiff.v)
  }

  /** `X` for a whole frame. */
  function SelectInputs(df: seq<FeatureRow>): (x: seq<Inputs>)
    requires forall f :: f in df ==>
      f.mucnuoca.Num? && f.mucnuocb.Num? && f.luuluong.Num? &&
      f.bRateOfChange.Num? && f.flowRateOfChange.Num? && f.abDiff.Num?
    ensures |x| == |df|
  {
    seq(|df|, i requires 0 <= i < |df| => InputsOf(df[i]))
  }

  /**
   * The inputs leave out the countdown, the creation time and the time gap: two rows that
   * differ only there, with the same rain flag, give the same inputs.
   */
  lemma InputsLeaveOutTarget(f: FeatureRow, countdown: Float, createdAt: real, timeDiff: Float)
    requires f.mucnuoca.Num? && f.mucnuocb.Num? && f.luuluong.Num?
    requires f.bRateOfChange.Num? && f.flowRateOfChange.Num? && f.abDiff.Num?
    ensures InputsOf(f.(timeUntilADanger := countdown, createdAt := createdAt, timeDiff := timeDiff)) == InputsOf(f)
  {
  }

  /**
   * analyze.py: the classifier gets the seven selected columns of each feature row and the
   * label of that row; training is refused when the labels hold fewer than two distinct classes.
   */
  function ClassifierTrainingData(rows: seq<Row>): (data: Option<(seq<Inputs>, seq<string>)>)
    ensures data.Some? ==>
      && |data.value.0| == |rows| && |data.value.1| == |rows|
      && (forall i :: 0 <= i < |rows| ==> data.value.0[i] == InputsOf(CreateFeatures(rows)[i]))
      && data.value.1 == CreateTargetLabels(CreateFeatures(rows))
    ensures data.None? <==> forall i, j :: 0 <= i < |rows| && 0 <= j < |rows| ==>
      CreateTargetLabels(CreateFeatures(rows))[i] == CreateTargetLabels(CreateFeatures(rows))[j]
  {
    var df := CreateFeatures(rows);
    var labels := CreateTargetLabels(df);
    ClassCount(labels);
    NoMissingOrInfiniteValues(rows);
    if |set l | l in labels| < 2 then None else Some((SelectInputs(df), labels))
  }

  /** A sequence has fewer than two distinct values exactly when all its elements are equal. */
  lemma ClassCount(labels: seq<string>)
    ensures |set l | l in labels| < 2 <==> forall i, j :: 0 <= i < |labels| && 0 <= j < |labels| ==> labels[i] == labels[j]
  {
    var classes := set l | l in labels;
    if exists i, j :: 0 <= i < |labels| && 0 <= j < |labels| && labels[i] != labels[j] {
      var i, j :| 0 <= i < |labels| && 0 <= j < |labels| && labels[i] != labels[j];
      assert {labels[i], labels[j]} <= classes;
      assert |{labels[i], labels[j]}| == 2;
      SubsetCard({labels[i], labels[j]}, classes);
    } else if labels != [] {
      assert classes <= {labels[0]};
      SubsetCard(classes, {labels[0]});
    }
  }

  lemma SubsetCard<T>(a: set<T>, b: set<T>)
    requires a <= b
    ensures |a| <= |b|
  {
    if a != {} {
      var x :| x in a;
      SubsetCard(a - {x}, b - {x});
    }
  }

  /** analyze_time.py: fewer than 50 rows means no feature derivation and no training. */
  const MinTrainingRows: nat := 50

  /**
   * analyze_time.py: with at least 50 rows, the regressor gets the seven selected
   * columns of each feature row (the same derivation as analyze.py) and, as the
   * target, the countdown column with a missing value replaced by 0.
   */
  function RegressorTrainingData(rows: seq<Row>): (data: Option<(seq<Inputs>, seq<real>)>)
    ensures data.None? <==> |rows| < 50
    ensures data.Some? ==>
      && |data.value.0| == |rows|
      && (forall i :: 0 <= i < |rows| ==> data.value.0[i] == InputsOf(CreateFeatures(rows)[i]))
      && |data.value.1| == |rows|
      && forall i :: 0 <= i < |rows| ==>
           data.value.1[i] == SortByCreatedAt(rows)[i].timeUntilADanger.GetOr(0.0)
  {
    if |rows| < MinTrainingRows then None
    else
      var df := CreateFeatures(rows);
      NoMissingOrInfiniteValues(rows);
      Some((SelectInputs(df), seq(|df|, i requires 0 <= i < |df| => FillNa(df[i].timeUntilADanger).v)))
  }
}
