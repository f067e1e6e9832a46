/** The per-column drift check of `detect_dataset_drift` as values: the test
    result of one column, and the report and status after the loop has
    processed the first n columns of the base table. */
module Drift {
  import opened Wrappers
  import opened Tables

  /** The two-sample test (`ks_2samp`): the p-value of two samples, or `None`
      when the test raises (an empty or non-numeric column, say). */
  type TwoSampleTest = (Column, Column) -> Option<real>

  /** The default significance threshold of `detect_dataset_drift`. */
  const DefaultThreshold: real := 0.05

  /** One entry of the drift report. `driftStatus` holds when the two samples
      are judged to come from the same distribution, i.e. when there is NO drift. */
  datatype ColumnDrift = ColumnDrift(pValue: real, driftStatus: bool)

  type DriftReport = map<ColumnName, ColumnDrift>

  /** The report and the running `status` flag of the loop. */
  datatype ScanState = ScanState(report: DriftReport, status: bool)

  /** The p-value for base column c: `None` when `current_dataframe[c]` raises
      a KeyError or the test raises. */
  function ColumnPValue(base: DataFrame, current: DataFrame, ks: TwoSampleTest, c: ColumnName): Option<real>
    requires c in base.columns
  {
    if c in current.values then ks(base.values[c], current.values[c]) else None
  }

  /** The loop of `detect_dataset_drift` after its first n iterations, one
      `report.update` and one fold into `status` per column. */
  function Scan(base: DataFrame, current: DataFrame, ks: TwoSampleTest, threshold: real, n: nat): Result<ScanState>
    requires n <= |base.columns|
  {
    if n == 0 then Success(ScanState(map[], true))
    else
      match Scan(base, current, ks, threshold, n - 1)
      case Failure => Failure
      case Success(s) =>
        var c := base.columns[n - 1];
        match ColumnPValue(base, current, ks, c)
        case None => Failure
        case Some(p) =>
          Success(ScanState(s.report[c := ColumnDrift(p, threshold <= p)], s.status && threshold <= p))
  }

  /** Every base column can be looked up in the current table and tested. */
  predicate Comparable(base: DataFrame, current: DataFrame, ks: TwoSampleTest) {
    forall c :: c in base.columns ==> ColumnPValue(base, current, ks, c).Some?
  }

  /** The p-value of a base column that can be tested. */
  function PValue(base: DataFrame, current: DataFrame, ks: TwoSampleTest, c: ColumnName): real
    requires c in base.columns && ColumnPValue(base, current, ks, c).Some?
  {
    ColumnPValue(base, current, ks, c).value
  }

  /** The report the source promises: exactly one entry per base column,
      holding that column's p-value and whether it reaches the threshold. */
  predicate IsDriftReport(report: DriftReport, base: DataFrame, current: DataFrame, ks: TwoSampleTest, threshold: real)
    requires Comparable(base, current, ks)
  {
    && (forall c :: c in report ==> c in base.columns)
    && (forall c :: c in base.columns ==>
          c in report && report[c] == ColumnDrift(PValue(base, current, ks, c), threshold <= PValue(base, current, ks, c)))
  }

  /** No base column has a p-value below the threshold. */
  predicate NoColumnDrifted(base: DataFrame, current: DataFrame, ks: TwoSampleTest, threshold: real)
    requires Comparable(base, current, ks)
  {
    forall c :: c in base.columns ==> threshold <= PValue(base, current, ks, c)
  }

  /** The loop gets through the first n columns iff each of them can be tested. */
  lemma {:induction false} ScanSucceedsIff(base: DataFrame, current: DataFrame, ks: TwoSampleTest, threshold: real, n: nat)
    requires n <= |base.columns|
    ensures Scan(base, current, ks, threshold, n).Success? <==>
            forall c :: c in base.columns[..n] ==> ColumnPValue(base, current, ks, c).Some?
  {
    if n > 0 {
      ScanSucceedsIff(base, current, ks, threshold, n - 1);
      assert base.columns[..n] == base.columns[..n - 1] + [base.columns[n - 1]];
    }
  }

  /** After n successful iterations the report's keys are exactly the first
      n base columns; columns of the current table alone never appear. */
  lemma {:induction false} ScanKeys(base: DataFrame, current: DataFrame, ks: TwoSampleTest, threshold: real, n: nat)
    requires n <= |base.columns|
    requires Scan(base, current, ks, threshold, n).Success?
    ensures forall c :: c in Scan(base, current, ks, threshold, n).value.report <==> c in base.columns[..n]
  {
    if n > 0 {
      ScanKeys(base, current, ks, threshold, n - 1);
      assert base.columns[..n] == base.columns[..n - 1] + [base.columns[n - 1]];
    }
  }

  /** After n successful iterations each of the first n base columns has the
      entry built from its own p-value. */
  lemma {:induction false} ScanEntries(base: DataFrame, current: DataFrame, ks: TwoSampleTest, threshold: real, n: nat)
    requires n <= |base.columns|
    requires Scan(base, current, ks, threshold, n).Success?
    ensures forall c :: c in base.columns[..n] ==>
      && ColumnPValue(base, current, ks, c).Some?
      && c in Scan(base, current, ks, threshold, n).value.report
      && Scan(base, current, ks, threshold, n).value.report[c] ==
         ColumnDrift(ColumnPValue(base, current, ks, c).value, threshold <= ColumnPValue(base, current, ks, c).value)
  {
    if n > 0 {
      ScanEntries(base, current, ks, threshold, n - 1);
      var prefix := base.columns[..n - 1];
      var last := base.columns[n - 1];
      assert base.columns[..n] == prefix + [last];
      assert forall k :: 0 <= k < |prefix| ==> prefix[k] == base.columns[k] != last;
    }
  }

  /** After n successful iterations `status` is the AND, over the first n base
      columns, of "the p-value reaches the threshold". */
  lemma {:induction false} ScanStatus(base: DataFrame, current: DataFrame, ks: TwoSampleTest, threshold: real, n: nat)
    requires n <= |base.columns|
    requires Scan(base, current, ks, threshold, n).Success?
    ensures forall c :: c in base.columns[..n] ==> ColumnPValue(base, current, ks, c).Some?
    ensures Scan(base, current, ks, threshold, n).value.status <==>
            forall c :: c in base.columns[..n] ==> threshold <= ColumnPValue(base, current, ks, c).value
  {
    if n > 0 {
      ScanStatus(base, current, ks, threshold, n - 1);
      assert base.columns[..n] == base.columns[..n - 1] + [base.columns[n - 1]];
    }
  }

  /** The whole loop: it fails iff some base column cannot be tested; when it
      succeeds its report is the promised one and `status` holds iff no
      column's p-value is below the threshold (so it holds for a table with
      no columns). */
  lemma ScanAll(base: DataFrame, current: DataFrame, ks: TwoSampleTest, threshold: real)
    ensures Scan(base, current, ks, threshold, |base.columns|).Success? <==> Comparable(base, current, ks)
    ensures Comparable(base, current, ks) ==>
      var s := Scan(base, current, ks, threshold, |base.columns|).value;
      && IsDriftReport(s.report, base, current, ks, threshold)
      && (s.status <==> NoColumnDrifted(base, current, ks, threshold))
  {
    var n := |base.columns|;
    assert base.columns[..n] == base.columns;
    ScanSucceedsIff(base, current, ks, threshold, n);
    if Comparable(base, current, ks) {
      ScanKeys(base, current, ks, threshold, n);
      ScanEntries(base, current, ks, threshold, n);
      ScanStatus(base, current, ks, threshold, n);
    }
  }

  /** Columns that only the current table has are never consulted: two current
      tables that agree on the base columns give the same outcome. */
  lemma {:induction false} ScanReadsOnlyBaseColumns(base: DataFrame, current: DataFrame, current': DataFrame,
                                                    ks: TwoSampleTest, threshold: real, n: nat)
    requires n <= |base.columns|
    requires forall c :: c in base.columns ==> (c in current.values <==> c in current'.values)
    requires forall c :: c in base.columns && c in current.values ==> current.values[c] == current'.values[c]
    ensures Scan(base, current, ks, threshold, n) == Scan(base, current', ks, threshold, n)
  {
    if n > 0 {
      ScanReadsOnlyBaseColumns(base, current, current', ks, threshold, n - 1);
      var c := base.columns[n - 1];
      assert ColumnPValue(base, current, ks, c) == ColumnPValue(base, current', ks, c);
    }
  }

  /** Comparing a table with itself under a test that gives identical samples
      the p-value 1.0: every column is reported as the same distribution and
      the overall status holds, for any threshold up to 1.0. */
  lemma {:induction false} IdenticalTablesShowNoDrift(table: DataFrame, ks: TwoSampleTest, threshold: real)
    requires forall c :: c in table.columns ==> ks(table.values[c], table.values[c]) == Some(1.0)
    requires threshold <= 1.0
    ensures Comparable(table, table, ks)
    ensures var s := Scan(table, table, ks, threshold, |table.columns|);
      && s.Success?
      && s.value.status
      && (forall c :: c in table.columns ==> c in s.value.report && s.value.report[c] == ColumnDrift(1.0, true))
  {
    assert Comparable(table, table, ks) by {
      forall c | c in table.columns ensures ColumnPValue(table, table, ks, c) == Some(1.0) {
        assert c in table.values;
      }
    }
    ScanAll(table, table, ks, threshold);
  }
}
