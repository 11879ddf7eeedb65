/**
 * The offline trainer (train_model.py): derive the binary label from the
 * `prognosis` column, derive the feature columns by dropping that column,
 * and decide between a stratified and an unstratified train/test split.
 * Fitting the forest and the split itself are library calls outside the model.
 */
module Training {
  import opened Prelude

  /** A cell of the CSV file as the data frame holds it. */
  datatype Cell = Text(text: string) | Number(value: int)

  /** The data frame read from the CSV file: column names, and rows of cells. */
  datatype Table = Table(columns: seq<string>, rows: seq<seq<Cell>>)

  datatype SplitMode = Stratified | Unstratified

  /** What the trainer hands to the split and to `fit`, and the vocabulary it persists. */
  datatype TrainingSet = TrainingSet(
    features: seq<string>,     // X.columns, persisted as the vocabulary
    x: seq<seq<Cell>>,         // X, one row per data row
    y: seq<int>,               // the binary labels
    split: SplitMode)

  datatype TrainError = MissingColumn(name: string)

  const LabelColumn := "prognosis"
  /** The prognosis value counted as positive; the data set spells it with a trailing space. */
  const TargetPrognosis := "Diabetes "

  /** What a data frame read from CSV guarantees: distinct column names, rectangular rows. */
  predicate WellFormed(t: Table) {
    Distinct(t.columns) && forall r :: r in t.rows ==> |r| == |t.columns|
  }

  /** `(df['prognosis'] == 'Diabetes ').astype(int)` for one row. */
  function Label(prognosis: Cell): (y: int)
    ensures y == 0 || y == 1
    ensures prognosis.Number? ==> y == 0
  {
    if prognosis == Text(TargetPrognosis) then 1 else 0
  }

  /** The label series of the table, reading the prognosis from column `p`. */
  function Labels(t: Table, p: nat): (y: seq<int>)
    requires WellFormed(t) && p < |t.columns|
    ensures |y| == |t.rows|
    ensures forall i :: 0 <= i < |y| ==> y[i] == 0 || y[i] == 1
    ensures forall i :: 0 <= i < |y| ==> (y[i] == 1 <==> t.rows[i][p] == Text(TargetPrognosis))
  {
    seq(|t.rows|, i requires 0 <= i < |t.rows| => assert t.rows[i] in t.rows; Label(t.rows[i][p]))
  }

  /** `y.sum()`: the number of positive rows. */
  function Positives(y: seq<int>): (n: nat)
    ensures n <= |y|
    ensures n == 0 <==> 1 !in y
  {
    Count(y, 1)
  }

  /** `(y == 0).sum()`: the number of negative rows. */
  function Negatives(y: seq<int>): (n: nat)
    ensures n <= |y|
    ensures n == 0 <==> 0 !in y
  {
    Count(y, 0)
  }

  /** The guard of the split: more than ten rows and at least two of each class. */
  function ShouldStratify(y: seq<int>): (b: bool)
    ensures b <==> |y| > 10 && Positives(y) >= 2 && Negatives(y) >= 2
  {
    |y| > 10 && (if Positives(y) <= Negatives(y) then Positives(y) else Negatives(y)) >= 2
  }

  /**
   * The straight-line part of the script: a missing `prognosis` column is
   * fatal; otherwise labels, feature columns, feature rows and the split mode.
   */
  function Prepare(t: Table): (r: Result<TrainingSet, TrainError>)
    requires WellFormed(t)
    ensures r.Failure? <==> LabelColumn !in t.columns
    ensures r.Failure? ==> r.error == MissingColumn(LabelColumn)
    ensures r.Success? ==> LabelColumn !in r.value.features
    ensures r.Success? ==> |r.value.y| == |r.value.x| == |t.rows|
    ensures r.Success? ==> r.value.y == Labels(t, IndexOf(t.columns, LabelColumn))
    ensures r.Success? ==> forall i :: 0 <= i < |t.rows| ==>
      (r.value.y[i] == 1 <==> t.rows[i][IndexOf(t.columns, LabelColumn)] == Text(TargetPrognosis))
    ensures r.Success? ==> (r.value.split == Stratified <==> ShouldStratify(r.value.y))
  {
    if LabelColumn !in t.columns then
      Failure(MissingColumn(LabelColumn))
    else
      var p := IndexOf(t.columns, LabelColumn);
      var y := Labels(t, p);
      Success(TrainingSet(
        RemoveAll(t.columns, LabelColumn),
        seq(|t.rows|, i requires 0 <= i < |t.rows| => assert t.rows[i] in t.rows; DropAt(t.rows[i], p)),
        y,
        if ShouldStratify(y) then Stratified else Unstratified))
  }

  /** Every label is 0 or 1, so positives and negatives together are all rows. */
  lemma {:induction false} ClassCountsPartition(y: seq<int>)
    requires forall i :: 0 <= i < |y| ==> y[i] == 0 || y[i] == 1
    ensures Positives(y) + Negatives(y) == |y|
  {
    if y != [] {
      ClassCountsPartition(y[1..]);
    }
  }

  /** The number of positive labels is the number of rows whose prognosis is exactly `'Diabetes '`. */
  lemma {:induction false} PositivesCountTarget(y: seq<int>, prognoses: seq<Cell>)
    requires |y| == |prognoses|
    requires forall i :: 0 <= i < |y| ==> y[i] == Label(prognoses[i])
    ensures Positives(y) == Count(prognoses, Text(TargetPrognosis))
  {
    if y != [] {
      PositivesCountTarget(y[1..], prognoses[1..]);
    }
  }

  /** The prognosis without the trailing space is not the target. */
  lemma UnpaddedNameIsNegative()
    ensures Label(Text("Diabetes")) == 0
    ensures Label(Text(TargetPrognosis)) == 1
  {
  }

  /**
   * The feature columns are all columns but `prognosis`, in their original
   * order: the column list with the position of `prognosis` dropped.
   */
  lemma FeatureColumnsInOrder(t: Table)
    requires WellFormed(t) && LabelColumn in t.columns
    ensures Prepare(t).Success?
    ensures Prepare(t).value.features == DropAt(t.columns, IndexOf(t.columns, LabelColumn))
    ensures |Prepare(t).value.features| == |t.columns| - 1
  {
    var p := IndexOf(t.columns, LabelColumn);
    DistinctCount(t.columns, LabelColumn);
    RemoveAllOnce(t.columns, LabelColumn, p);
  }

  /**
   * Row `i` of the feature matrix holds, at position `k`, the cell of the
   * column named `features[k]`: the vocabulary fixes what each slot means.
   */
  lemma FeatureRowsAligned(t: Table, i: nat, k: nat)
    requires WellFormed(t) && LabelColumn in t.columns
    requires i < |t.rows| && k < |t.columns| - 1
    ensures Prepare(t).Success?
    ensures |Prepare(t).value.x[i]| == |Prepare(t).value.features| == |t.columns| - 1
    ensures Prepare(t).value.features[k] in t.columns
    ensures Prepare(t).value.x[i][k] == t.rows[i][IndexOf(t.columns, Prepare(t).value.features[k])]
  {
    FeatureColumnsInOrder(t);
    var p := IndexOf(t.columns, LabelColumn);
    var ts := Prepare(t).value;
    assert t.rows[i] in t.rows;
    var c := if k < p then k else k + 1;
    assert ts.features[k] == t.columns[c];
    DistinctIndexOf(t.columns, c);
  }

  /**
   * The stratified split is chosen exactly when there are more than ten rows,
   * at least two of them with prognosis `'Diabetes '` and at least two without.
   */
  lemma StratifiedIff(t: Table)
    requires WellFormed(t) && LabelColumn in t.columns
    ensures Prepare(t).Success?
    ensures var n := Count(ColumnCells(t, IndexOf(t.columns, LabelColumn)), Text(TargetPrognosis));
      Prepare(t).value.split == Stratified <==> |t.rows| > 10 && 2 <= n && n <= |t.rows| - 2
  {
    var p := IndexOf(t.columns, LabelColumn);
    var y := Labels(t, p);
    ClassCountsPartition(y);
    PositivesCountTarget(y, ColumnCells(t, p));
  }

  /** With ten rows or fewer the split is never stratified, whatever the classes. */
  lemma SmallTablesUnstratified(t: Table)
    requires WellFormed(t) && LabelColumn in t.columns && |t.rows| <= 10
    ensures Prepare(t).Success? && Prepare(t).value.split == Unstratified
  {
  }

  /** The cells of column `p`, one per row. */
  function ColumnCells(t: Table, p: nat): (cells: seq<Cell>)
    requires WellFormed(t) && p < |t.columns|
    ensures |cells| == |t.rows|
  {
    seq(|t.rows|, i requires 0 <= i < |t.rows| => assert t.rows[i] in t.rows; t.rows[i][p])
  }
}
