# Data validation stage of the Network_Security training pipeline

This project models the `DataValidation` component of the pipeline
(`Network_security/components/data_validation.py`). The component runs between
data ingestion and data transformation and does four things:

- It reads the train and test splits from CSV files.
- It checks each split's column count against the number of top-level entries
  of the schema document.
- It runs a two-sample Kolmogorov–Smirnov test on every column of the train
  split against the same column of the test split. The p-value and a
  same-distribution flag for each column go into a drift report, written as YAML.
- It writes both splits unchanged to their "valid" paths and returns a
  `DataValidationArtifact`.

Files:

- `wrappers.dfy`: `Option` (Python's `None` or a value) and `Result`. Every
  `NetworkSecurityException` the component raises becomes the single `Failure`.
- `tables.dfy`: a table is its column names in header order plus a map from
  name to column values. `DataFrame` is the subset of well-formed tables: the
  names are distinct, every named column has values, and all columns have the
  same number of rows. `YamlNode` is what `yaml.safe_load` returns. `PyLen` is
  Python's `len` on a `YamlNode`; it raises on null, booleans and numbers.
- `drift.dfy`: the loop of `detect_dataset_drift` as a left fold, `Scan`. It
  makes one `report.update` and one fold into `status` per base column. The
  lemmas give its closed form.
- `data_validation.dfy`: the class `DataValidation` with the same three
  fields the source has. Its methods are the three operations.

How the outside world enters the model:

- `ks_2samp` is a function-typed parameter `ks: (Column, Column) -> Option<real>`.
  `None` means the test raised.
- `pd.read_csv` is `FileSystem.readCsv: Path -> Option<DataFrame>`.
- Every write is an opaque step. `FileSystem.canWrite` says whether it succeeds
  at a given path.
- Instead of changing a disk, the methods return the files they wrote, in
  order, as `seq<Write>`.
- p-values and the threshold are `real`s. They are only compared.

Two behaviours of the source are reproduced on purpose:

- `detect_dataset_drift` has no `return` statement, so it returns `None` on
  success. The model's method returns `Success(None)`. Its loop-local `status`
  is exposed only as a ghost out-parameter.
- `initiate_data_validation` reuses one `status` variable. The column-count
  verdicts are overwritten by the drift call's `None`. So `not status` is always
  true, the "drift found" log line is always reached, and the artifact's
  `validation_status` is `None`.

In the report, `driftStatus` is true when the p-value reaches the threshold
(`threshold <= p`). So true means the distributions match, that is, no drift.
A p-value equal to the threshold counts as a match.

`Network_security/constants/training_pipeline/__init__.py` defines no
`SCHEMA_FILE_PATH`, although `data_validation.py:4` imports it; the model
therefore takes the schema path as a parameter of `Create`.

## Model

| member | source | states |
|---|---|---|
| `DataValidationComponent.DataValidation.Create` | Network_security/components/data_validation.py:12-19 | Construction succeeds iff the schema document loads. On success the new object holds the ingestion artifact, the config and the loaded schema. |
| `DataValidationComponent.DataValidation.constructor` | Network_security/components/data_validation.py:12-17 | The three fields hold the given ingestion artifact, config and schema. |
| `DataValidationComponent.DataValidation.ValidateNumberOfColumns` | Network_security/components/data_validation.py:28-36 | Fails exactly when the schema has no `len`. For a schema mapping it is true iff the frame's column count equals the number of top-level entries. As a function it cannot change the frame. |
| `DataValidationComponent.DataValidation.SchemaColumnsPass` | Network_security/components/data_validation.py:30-33 | A frame whose column names are exactly the schema's keys passes the check. This follows from its names being distinct. |
| `DataValidationComponent.DataValidation.OnlyColumnCountMatters` | Network_security/components/data_validation.py:30-34 | Two frames with equally many columns get the same verdict, whatever their names or values. |
| `DataValidationComponent.DataValidation.DetectDatasetDrift` | Network_security/components/data_validation.py:38-66 | Succeeds iff every base column is in the current table, its test does not raise, and the report can be written. On success it returns `None` and writes exactly one report: one entry per base column, holding the p-value and whether `threshold <= p`. On failure nothing is written. The local status is true iff no base column's p-value is below the threshold. |
| `DataValidationComponent.DataValidation.InitiateDataValidation` | Network_security/components/data_validation.py:68-110 | Succeeds iff both splits read, the schema has a length, every train column can be tested against the test split, and all three writes succeed. The column-count verdicts never gate success or the artifact. The artifact's status is `None`, the invalid paths are `None`, and the other paths are copied from the config. The "drift found" branch is taken on every run whose drift check returns, including runs where a later CSV write fails. The writes are the drift report, then the unchanged train copy, then the unchanged test copy, up to the first write that fails. |
| `Drift.ScanSucceedsIff` | Network_security/components/data_validation.py:44-47 | The loop gets through the first n base columns iff each of them is in the current table and its test does not raise. |
| `Drift.ScanKeys` | Network_security/components/data_validation.py:44-56 | After the loop over the first n columns, the report's keys are exactly those base columns. Columns only in the current table never become keys. |
| `Drift.ScanEntries` | Network_security/components/data_validation.py:47-56 | Each processed base column c has the entry with p-value `ks(base[c], current[c])` and `drift_status` equal to `threshold <= p`. |
| `Drift.ScanStatus` | Network_security/components/data_validation.py:42-52 | `status` is the AND, over the columns processed so far, of `threshold <= p`. It starts true. |
| `Drift.ScanAll` | Network_security/components/data_validation.py:42-56 | The whole loop fails iff some base column cannot be tested. Otherwise its report is the promised one, and `status` is false iff some base column's p-value is below the threshold. |
| `Drift.ScanReadsOnlyBaseColumns` | Network_security/components/data_validation.py:44-46 | Two current tables that agree on the base columns give the same loop outcome. Extra columns of the current table are never consulted. |
| `Drift.IdenticalTablesShowNoDrift` | Network_security/components/data_validation.py:47-56 | Take a table compared with itself, a test that gives each of its columns p = 1.0 against itself, and a threshold of at most 1.0. Every column is then reported as `(1.0, true)` and the status holds. |

## Left out

- Reading CSV files, writing CSV and YAML files, and `os.makedirs`: these are
  file I/O. They are oracles (`readCsv`, `canWrite`). For the drift report
  and the train copy, creating the parent directory and writing the file form
  one step. The source creates only the train copy's directory, so
  `canWrite(config.validTestFilePath)` means writing into an existing
  directory, which the train step created only when both copies share one;
  that dependency between the two paths is not modelled. The content of a
  written file is its value (`Write`); the YAML and CSV encodings are not modelled.
- The internals of `ks_2samp` and floating-point p-values: a foreign statistics
  library. The test is a parameter, and p-values are exact `real`s. A NaN
  p-value, which would fail `threshold <= p`, is not modelled.
- Logging and the exception wrapper: every wrapped exception is `Failure`. The
  one log line that depends on data (the "drift found" message) is the
  `driftFoundLogged` result.
- The `error_message` locals set when a column count is wrong: they are
  assigned and never read.
- `DetectDatasetDrift`: the loop's `status` is a ghost out-parameter, because
  the source drops it and returns nothing.
- YAML mappings keyed by anything other than strings: `YamlNode` keys are strings.
- `DataValidationConfig` has only the three paths the component reads. The
  other fields of the source's config entity are not part of this model.
- `main.py`, `push_data.py`, the YAML helpers in `utils.py` and the constants
  module are glue, I/O or literals.
