/** The validation stage of the training pipeline: the column-count check, the
    drift check between the train and test splits, and the orchestration that
    writes the validated copies and builds the validation artifact. */
module DataValidationComponent {
  import opened Wrappers
  import opened Tables
  import opened Drift

  /** What the ingestion stage hands over: where the train and test splits are. */
  datatype DataIngestionArtifact = DataIngestionArtifact(trainFilePath: Path, testFilePath: Path)

  /** The output locations this stage uses. */
  datatype DataValidationConfig =
    DataValidationConfig(validTrainFilePath: Path, validTestFilePath: Path, driftReportFilePath: Path)

  /** What this stage hands to the transformation stage. `validationStatus` is
      declared a boolean but receives whatever the drift check returned. */
  datatype DataValidationArtifact = DataValidationArtifact(
    validationStatus: Option<bool>,
    validTrainFilePath: Path,
    validTestFilePath: Path,
    invalidTrainFilePath: Option<Path>,
    invalidTestFilePath: Option<Path>,
    driftReportFilePath: Path)

  /** The file system as the stage sees it: `readCsv` gives the data frame at a
      path or `None` when reading raises; `canWrite` says whether creating the
      parent directory and writing a file at a path succeeds. */
  datatype FileSystem = FileSystem(readCsv: Path -> Option<DataFrame>, canWrite: Path -> bool)

  /** A file the stage wrote: the YAML drift report or a CSV copy of a table. */
  datatype Write = YamlReport(path: Path, report: DriftReport) | CsvTable(path: Path, table: Table)

  /** Python's `not` on the value the drift check returned: `None` is falsy. */
  function PyNot(v: Option<bool>): bool {
    match v
    case None => true
    case Some(b) => !b
  }

  class DataValidation {
    const ingestion: DataIngestionArtifact
    const config: DataValidationConfig
    /** The schema document, loaded once on construction. */
    const schemaConfig: YamlNode

    constructor (ingestion: DataIngestionArtifact, config: DataValidationConfig, schemaConfig: YamlNode)
      ensures this.ingestion == ingestion && this.config == config && this.schemaConfig == schemaConfig
    {
      this.ingestion := ingestion;
      this.config := config;
      this.schemaConfig := schemaConfig;
    }

    /** Creating the component loads the schema document; a failing load fails. */
    static method Create(ingestion: DataIngestionArtifact, config: DataValidationConfig,
                         readYaml: Path -> Option<YamlNode>, schemaFilePath: Path)
      returns (r: Result<DataValidation>)
      ensures r.Success? <==> readYaml(schemaFilePath).Some?
      ensures r.Success? ==> fresh(r.value) && r.value.ingestion == ingestion && r.value.config == config &&
                             r.value.schemaConfig == readYaml(schemaFilePath).value
    {
      match readYaml(schemaFilePath)
      case None =>
        r := Failure;
      case Some(schema) =>
        var v := new DataValidation(ingestion, config, schema);
        r := Success(v);
    }

    /** Whether the data frame has as many columns as the schema has top-level
        entries: fails when the schema has no length, and otherwise is true iff
        the counts agree. The column names are not compared. */
    function ValidateNumberOfColumns(dataframe: DataFrame): (r: Result<bool>)
      ensures r.Failure? <==> PyLen(schemaConfig).None?
      ensures schemaConfig.YamlMapping? ==> r == Success(|dataframe.columns| == |schemaConfig.entries|)
    {
      match PyLen(schemaConfig)
      case None => Failure
      case Some(numberOfColumns) => Success(|dataframe.columns| == numberOfColumns)
    }

    /** A data frame whose column names are exactly the schema mapping's keys passes. */
    lemma SchemaColumnsPass(dataframe: DataFrame)
      requires schemaConfig.YamlMapping?
      requires forall c :: c in dataframe.columns <==> c in schemaConfig.entries
      ensures ValidateNumberOfColumns(dataframe) == Success(true)
    {
      DistinctNamesCardinality(dataframe.columns);
      assert (set c | c in dataframe.columns) == schemaConfig.entries.Keys;
    }

    /** Only the count is checked: data frames with equally many columns get the
        same verdict whatever their names and values. */
    lemma OnlyColumnCountMatters(a: DataFrame, b: DataFrame)
      requires |a.columns| == |b.columns|
      ensures ValidateNumberOfColumns(a) == ValidateNumberOfColumns(b)
    {
    }

    /** The drift check: walks the base table's columns in order, tests each
        against the same column of the current table, records every p-value
        with whether it reaches the threshold, and writes the report. It
        returns nothing on success; `status` is the loop's local flag. */
    method DetectDatasetDrift(base: DataFrame, current: DataFrame, fs: FileSystem, ks: TwoSampleTest,
                              threshold: real := DefaultThreshold)
      returns (r: Result<Option<bool>>, writes: seq<Write>, ghost status: bool)
      ensures r.Success? <==> Comparable(base, current, ks) && fs.canWrite(config.driftReportFilePath)
      ensures r.Success? ==> r.value == None
      ensures r.Failure? ==> writes == []
      ensures r.Success? ==>
        && |writes| == 1
        && writes[0].YamlReport?
        && writes[0].path == config.driftReportFilePath
        && IsDriftReport(writes[0].report, base, current, ks, threshold)
      ensures Comparable(base, current, ks) ==> (status <==> NoColumnDrifted(base, current, ks, threshold))
    {
      ScanAll(base, current, ks, threshold);
      var localStatus := true;
      var report: DriftReport := map[];
      var i := 0;
      while i < |base.columns|
        invariant 0 <= i <= |base.columns|
        invariant Scan(base, current, ks, threshold, i) == Success(ScanState(report, localStatus))
      {
        var column := base.columns[i];
        var d1 := base.values[column];
        if column !in current.values {
          ScanSucceedsIff(base, current, ks, threshold, |base.columns|);
          assert base.columns[..|base.columns|][i] == column;
          return Failure, [], false;
        }
        var d2 := current.values[column];
        var isSameDist := ks(d1, d2);
        if isSameDist.None? {
          ScanSucceedsIff(base, current, ks, threshold, |base.columns|);
          assert base.columns[..|base.columns|][i] == column;
          return Failure, [], false;
        }
        var isFound: bool;
        if threshold <= isSameDist.value {
          isFound := true;
        } else {
          isFound := false;
          localStatus := false;
        }
        report := report[column := ColumnDrift(isSameDist.value, isFound)];
        i := i + 1;
      }
      status := localStatus;
      var driftReportFilePath := config.driftReportFilePath;
      if !fs.canWrite(driftReportFilePath) {
        return Failure, [], status;
      }
      writes := [YamlReport(driftReportFilePath, report)];
      r := Success(None);
    }

    /** Every fallible step before the validated copies are written succeeds:
        both splits are read, the schema has a length, and every train column
        can be tested against the test split. */
    predicate InputsUsable(fs: FileSystem, ks: TwoSampleTest) {
      && fs.readCsv(ingestion.trainFilePath).Some?
      && fs.readCsv(ingestion.testFilePath).Some?
      && PyLen(schemaConfig).Some?
      && Comparable(fs.readCsv(ingestion.trainFilePath).value, fs.readCsv(ingestion.testFilePath).value, ks)
    }

    /** How many files a run writes: the report, then the train copy, then the
        test copy, stopping at the first write that fails. */
    function WritesPerformed(fs: FileSystem, ks: TwoSampleTest): nat {
      if !InputsUsable(fs, ks) || !fs.canWrite(config.driftReportFilePath) then 0
      else if !fs.canWrite(config.validTrainFilePath) then 1
      else if !fs.canWrite(config.validTestFilePath) then 2
      else 3
    }

    /** The stage: read both splits, check both column counts, check drift,
        write both splits unchanged to their valid paths and build the
        artifact. The column-count results are overwritten by the drift
        check's value, which is always `None`, so the "drift found" branch is
        always taken and the artifact's status is `None`. */
    method InitiateDataValidation(fs: FileSystem, ks: TwoSampleTest)
      returns (r: Result<DataValidationArtifact>, writes: seq<Write>, driftFoundLogged: bool)
      ensures r.Success? <==> WritesPerformed(fs, ks) == 3
      ensures r.Success? ==> r.value == DataValidationArtifact(
        None, config.validTrainFilePath, config.validTestFilePath, None, None, config.driftReportFilePath)
      ensures driftFoundLogged <==> 0 < |writes|
      ensures |writes| == WritesPerformed(fs, ks)
      ensures 0 < |writes| ==>
        && InputsUsable(fs, ks)
        && writes[0].YamlReport?
        && writes[0].path == config.driftReportFilePath
        && IsDriftReport(writes[0].report, fs.readCsv(ingestion.trainFilePath).value,
                         fs.readCsv(ingestion.testFilePath).value, ks, DefaultThreshold)
      ensures 1 < |writes| ==> writes[1] == CsvTable(config.validTrainFilePath, fs.readCsv(ingestion.trainFilePath).value)
      ensures 2 < |writes| ==> writes[2] == CsvTable(config.validTestFilePath, fs.readCsv(ingestion.testFilePath).value)
    {
      writes, driftFoundLogged := [], false;
      var trainFilePath := ingestion.trainFilePath;
      var testFilePath := ingestion.testFilePath;

      var trainRead := fs.readCsv(trainFilePath);
      if trainRead.None? {
        return Failure, [], false;
      }
      var trainDataframe := trainRead.value;
      var testRead := fs.readCsv(testFilePath);
      if testRead.None? {
        return Failure, [], false;
      }
      var testDataframe := testRead.value;

      var counted := ValidateNumberOfColumns(trainDataframe);
      if counted.Failure? {
        return Failure, [], false;
      }
      var status: Option<bool> := Some(counted.value);
      counted := ValidateNumberOfColumns(testDataframe);
      if counted.Failure? {
        return Failure, [], false;
      }
      status := Some(counted.value);

      var drift, reportWrites;
      ghost var driftFree;
      drift, reportWrites, driftFree := DetectDatasetDrift(trainDataframe, testDataframe, fs, ks);
      if drift.Failure? {
        return Failure, [], false;
      }
      status := drift.value;
      if PyNot(status) {
        driftFoundLogged := true;
      }
      writes := reportWrites;

      if !fs.canWrite(config.validTrainFilePath) {
        return Failure, writes, driftFoundLogged;
      }
      writes := writes + [CsvTable(config.validTrainFilePath, trainDataframe)];
      if !fs.canWrite(config.validTestFilePath) {
        return Failure, writes, driftFoundLogged;
      }
      writes := writes + [CsvTable(config.validTestFilePath, testDataframe)];

      r := Success(DataValidationArtifact(
        status, config.validTrainFilePath, config.validTestFilePath, None, None, config.driftReportFilePath));
    }
  }
}
