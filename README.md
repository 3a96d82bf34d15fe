# Vessel lead-time preprocessing, modelled in Dafny

This project models the table-to-table pipeline that turns a batch of raw
vessel-tracking reports into a training set for predicting *lead time*, and
then into a feature matrix and target vector. The pipeline steps are:

- **Flattening** (`extract_navigation_details`, `extract_vessel_details`):
  each report's nested `navigation` and `vesselDetails` structures are
  flattened into frames of their own.
- **Main details** (`preprocess_main_details`): the identity columns
  (`epochMillis`, `mmsi`) are kept and a `timestamp` is derived.
- **Navigation code**: the report's `navCode` is attached to the main details.
- **Lead time** (`calculate_lead_time`): the reports are sorted by vessel and
  time, and each gets a lead time from a per-`navCode` difference of
  timestamps shifted one row up.
- **Outliers** (`remove_outliers`): rows whose lead time lies outside the
  inclusive IQR fence around the 25th and 75th percentiles are dropped.
- **Merge** (`merge_details`): the vessel type, navigation description, course
  and speed are attached, and rows without a lead time are dropped.
- **Features** (`feature_engineering`): the model inputs are selected, the
  navigation description and vessel type are one-hot encoded with categories
  fitted on the batch, and the lead time becomes the target.

Every step is a pure function over sequences of rows. The modules follow the
program's steps:

| module | file | models |
|---|---|---|
| `Tables` | `tables.dfy` | cells, nested structures, frames, `KeyError`, the order-preserving filter |
| `Extraction` | `extraction.dfy` | `extract_navigation_details`, `extract_vessel_details` |
| `MainDetails` | `main_details.dfy` | `preprocess_main_details` |
| `LeadTime` | `lead_time.dfy` | `calculate_lead_time` (stable sort, group difference, shift) |
| `Outliers` | `outliers.dfy` | `remove_outliers` (linear-interpolation quartiles, fence) |
| `Merge` | `merge.dfy` | `merge_details` |
| `Preprocessing` | `preprocessing.dfy` | `preprocess_data` (`src/preprocessing.py:55` and the composition) |
| `FeatureEngineering` | `feature_engineering.dfy` | `feature_engineering` |

Modelling choices:

- **Rows and labels.** A row carries its pandas index label as `id`. The
  loaded reports are labelled by position, 0 to n − 1, and so are the
  flattened detail frames.
- **Assignment aligns by label.** `df.loc[:, col] = other[col]` aligns on
  the index label, not on the position. So after the sort and the filter,
  each row still receives the detail row with its own label. `At(frame, id,
  key)` models this read; a label or column the frame lacks reads as null.
- **Missing columns.** Selecting a column a frame lacks raises `KeyError`.
  This is modelled as `Err(MissingColumn(key))`, raised in the order the code
  reads the columns. For example, an empty batch flattens to a frame with no
  columns at all (`pd.DataFrame([])` at `src/preprocessing.py:9`), so it
  fails at `src/preprocessing.py:55`.
- **Time.** `timestamp` is kept as integer milliseconds since the Unix epoch.
  A difference of two timestamps is converted to minutes as `ms / 60000` over
  the reals.
- **The sort.** `sort_values` with several keys is a stable sort. It is
  modelled as an insertion sort that places each element before its equal
  keys, and proved stable: labels that ascend on input come out ordered by
  (`mmsi`, `timestamp`, label).
- **Grouping.** `groupby('navCode').diff()` leaves the rows with a null
  `navCode` out of every group. Such a row gets null and is nobody's
  predecessor. The one-pass definition that remembers each code's last
  timestamp is proved equal to the declarative one (the latest earlier row
  with the same code).
- **Quantiles.** `quantile` uses linear interpolation over the non-null
  values. With m sorted values, the quartile k/4 is
  `v[lo] + f·(v[lo+1] − v[lo])`, where `lo = ⌊(m−1)·k/4⌋` and `f` is the
  fractional part. When there is no value, the quantile is NaN, so every
  comparison fails and no row is kept.

Behaviours of the code that a reader might not expect, which the model
keeps:

- **Lead time is not the gap to the next report with the same code.** The
  docstring at `src/preprocessing.py:22` speaks of a lead time per group of
  navigation codes. But line 24 of `src/preprocessing.py` shifts the group
  differences over the whole sorted frame. So sorted row p receives the
  difference of row p + 1 from the previous row sharing row p + 1's code.
  - In the three-report example (0 s and 600 s with code 0, 300 s with
    code 5), the code gives null, 10, null, not 10, null, null
    (`LeadTime.ShiftedGroupExample`).
  - Groups span vessels, so lead times can be negative
    (`LeadTime.NegativeLeadTimeExample`).
- **The outlier filter is not idempotent.** It recomputes the fence from
  whatever it is given, so a second pass can drop more rows
  (`Outliers.NotIdempotentExample`).
- **Detail columns are matched by label, not by position.** After the sort
  the positions no longer match, but pandas' assignment aligns on the index
  label, so every row still receives its own report's details.
- **Errors.** There is no dedicated error taxonomy: a missing column is
  pandas' `KeyError`.
  - A batch with no lead time at all is not an error; it gives an empty
    result.
- **Output columns.** No step drops a column, so the output of
  `preprocess_data` still holds `epochMillis`, `mmsi`, `timestamp` and `navCode`
  next to the lead time and the four detail columns.

## Model

| member | source | states |
|---|---|---|
| `Extraction.ExtractNavigationDetails` | src/preprocessing.py:7-9 | one row per report in report order; a column for exactly the field names some report's `navigation` carries; each cell is that report's value for the field, null where it has none |
| `Extraction.ExtractVesselDetails` | src/preprocessing.py:11-13 | the same for `vesselDetails` |
| `Extraction.Flatten` | src/preprocessing.py:9 | `pd.DataFrame` of a list of structures: one row per structure, the columns are exactly the field names some structure carries, and every row has every column |
| `Extraction.FlattenReadsBack` | src/preprocessing.py:9 | reading field k of row i of a flattened frame gives structure i's value for k, or null when structure i lacks k |
| `MainDetails.PreprocessMainDetails` | src/preprocessing.py:15-19 | same number and order of rows; row i keeps label i, its `epochMillis` and `mmsi`, and gets the `timestamp` its `epochMillis` denotes |
| `Preprocessing.AttachNavCode` | src/preprocessing.py:55 | `KeyError` on `navCode` exactly when the navigation frame has no such column; otherwise every row unchanged, with the `navCode` of the navigation row carrying its label |
| `LeadTime.SortByVesselTime` | src/preprocessing.py:23 | a permutation of the rows (same length and multiset), non-decreasing by (`mmsi`, `timestamp`) |
| `LeadTime.SortIsStable` | src/preprocessing.py:23 | when labels ascend on input, the sorted rows are strictly ordered by (`mmsi`, `timestamp`, label): ties keep their input order |
| `LeadTime.PrevSameCode` | src/preprocessing.py:24 | the latest row before j with code c, and none exactly when no earlier row has code c |
| `LeadTime.DiffFromMatchesGroupDiff` | src/preprocessing.py:24 | the one-pass group difference, which remembers each code's last timestamp, agrees at every row with the difference from the latest earlier row with the same code |
| `LeadTime.GroupDiffs` | src/preprocessing.py:24 | `groupby('navCode').diff()` over the whole sorted frame, equal at every row to the declarative group difference |
| `LeadTime.CalculateLeadTime` | src/preprocessing.py:21-25 | same length; the rows are the input sorted by vessel and time (a permutation, sorted); row p's lead time is the group difference of row p + 1 in minutes (`shift(-1)`) and null for the last row |
| `LeadTime.LastRowHasNoLeadTime` | src/preprocessing.py:24 | the last sorted row never has a lead time |
| `LeadTime.ShiftedLeadTimeMeaning` | src/preprocessing.py:24 | row p has a lead time exactly when row p + 1 has a code shared by an earlier row; it is then (t[p+1] − t[q]) / 60000 minutes for the latest such row q |
| `LeadTime.ShiftedGroupExample` | src/preprocessing.py:23-24 | reports at 0 s and 600 s with code 0 and at 300 s with code 5 sort to 0, 300, 600 s and get null, 10, null minutes |
| `LeadTime.NegativeLeadTimeExample` | src/preprocessing.py:24 | a group spans vessels, so a lead time can be negative (−1/60 minute) |
| `Outliers.LeadTimes` | src/preprocessing.py:29-30 | the values the quantiles are taken over: a value occurs exactly when some row has it as lead time, and there are no more values than rows |
| `Outliers.LeadTimesInRowOrder` | src/preprocessing.py:29-30 | the values keep order and multiplicity: there is one per row with a lead time, and the k-th value is the lead time of the k-th such row |
| `Outliers.SortReals` | src/preprocessing.py:29-30 | the values in ascending order: a sorted permutation with the same members |
| `Outliers.Quartile` | src/preprocessing.py:29-30 | the interpolated quartile lies between the least and greatest value and between the two order statistics it interpolates |
| `Outliers.QuartilesOrdered` | src/preprocessing.py:29-31 | Q1 ≤ Q3, so the interquartile range is never negative |
| `Outliers.BatchQuartiles` | src/preprocessing.py:29-31 | no quartiles exactly when every lead time is null; otherwise Q1 ≤ Q3, some lead time is at most Q1 and some is at least Q3 |
| `Outliers.RemoveOutliers` | src/preprocessing.py:27-35 | the kept rows are a subsequence of the input, in input order; a row is kept exactly when its lead time is non-null and inside the inclusive fence [Q1 − 1.5·IQR, Q3 + 1.5·IQR], and then with every copy it has in the input; no row survives when every lead time is null |
| `Outliers.CollapsedFence` | src/preprocessing.py:33-34 | when Q1 = Q3, exactly the rows whose lead time equals it are kept |
| `Outliers.SingleValueKeepsAllTargets` | src/preprocessing.py:29-34 | when all non-null lead times are equal, every row with a lead time is kept and only the null ones are dropped |
| `Outliers.FenceExample` | src/preprocessing.py:29-34 | lead times 1, 2, 3, 4, 5, 100 give Q1 = 2.25, Q3 = 4.75, the fence [−1.5, 8.5], and only the row with 100 is dropped |
| `Outliers.NotIdempotentExample` | src/preprocessing.py:29-34 | lead times 1, 1, 1, 1, 2, 10 lose 10 on the first pass and 2 on a second pass over the result |
| `Merge.Attach` | src/preprocessing.py:40-43 | a row keeps its report and lead time and receives the `typeName`, `navDesc`, course and speed of the detail rows carrying its own label, whatever its position (null where the detail frame lacks the label) |
| `Merge.MergeDetails` | src/preprocessing.py:37-46 | `KeyError` on the first of `typeName`, `navDesc`, `courseOverGround`, `speedOverGround` the detail frames lack; otherwise exactly the input rows with a lead time, each as many times as in the input, with their details attached, in input order |
| `Merge.MergedRowsCarryDetails` | src/preprocessing.py:40-43 | every merged row has a lead time, comes from the input, and holds the details of the detail row carrying its own label |
| `Merge.DropnaKeepsAll` | src/preprocessing.py:45 | when every row has a lead time, `dropna` removes nothing: every row is kept, in order, with its details |
| `Preprocessing.TimedReports` | src/preprocessing.py:51-57 | `KeyError` on `navCode` exactly when no report's navigation carries it; otherwise the loaded reports, each exactly once (a permutation of them), strictly ordered by (`mmsi`, `timestamp`, label), each with the shifted group difference as lead time |
| `Preprocessing.TimedRowsComeFromTheirReport` | src/preprocessing.py:51-57 | every timed row is loaded report `id` under its own label `id` |
| `Preprocessing.LeadTable` | src/preprocessing.py:58 | the same error; otherwise a subsequence of the timed reports in which a timed row appears exactly when its lead time lies inside the fence computed from all of them |
| `Preprocessing.PreprocessData` | src/preprocessing.py:48-61 | fails exactly when no report carries `navCode` or the detail frames lack a column the merge reads; otherwise at most one row per report, and the output rows without their details are a subsequence of the fenced rows |
| `Preprocessing.PipelineFailure` | src/preprocessing.py:48-61 | the pipeline fails exactly when a field it reads is carried by no report; it names `navCode` when that is missing, else `typeName` when that is missing |
| `Preprocessing.EmptyInputFails` | src/preprocessing.py:55 | an empty batch raises `KeyError` on `navCode` |
| `Preprocessing.LeadRowsComeFromTheirReport` | src/preprocessing.py:51-58 | every row that survives the fence is a loaded report under its own label, with its own `epochMillis`, `mmsi`, `timestamp` and `navCode` |
| `Preprocessing.OutputRowsComeFromTheirReport` | src/preprocessing.py:48-61 | every output row is loaded report `id` under label `id`, with that report's identity columns, timestamp, `navCode`, `typeName`, `navDesc`, course and speed (null where the report has none), and a lead time |
| `Preprocessing.OutputIsOrdered` | src/preprocessing.py:48-61 | the output is strictly ordered by (`mmsi`, `timestamp`, label), so no report appears twice |
| `Preprocessing.OutputIsTheFencedRows` | src/preprocessing.py:58-59 | once the lead times exist, the merge succeeds exactly when the four detail columns exist, and then its output is the fenced rows, one for one and in order |
| `Preprocessing.OutputWithinFence` | src/preprocessing.py:57-59 | every output lead time lies inside the fence computed from all the timed reports |
| `FeatureEngineering.Observed` | src/feature_engineering.py:7 | the categories of a column are exactly its distinct non-null values |
| `FeatureEngineering.OneHot` | src/feature_engineering.py:7 | one indicator per category, true exactly for the cell's own value |
| `FeatureEngineering.DecodeOneHot` | src/feature_engineering.py:7 | decoding the indicators of a cell whose value is a category gives the cell back |
| `FeatureEngineering.ExactlyOneIndicator` | src/feature_engineering.py:7 | a non-null cell raises exactly one indicator, its own; a null cell raises none |
| `FeatureEngineering.FeatureEngineering` | src/feature_engineering.py:3-8 | same number and order of rows; `y` is the lead-time column; course and speed copied; the categories are exactly the values seen in the batch; each row's indicators are true exactly for its own values |
| `FeatureEngineering.FeaturesDecode` | src/feature_engineering.py:7 | a row's indicator columns give back its navigation description and vessel type |

## Left out

- `load_data` (Parquet reading): the loaded frame is the input sequence of reports.
- Training, evaluation and dataset download (`src/train.py`, `src/evaluation.py`, `src/dowload_dataset.py`): they are library calls and I/O, and they are not part of this model.
- Floating point: lead times, quartiles and the fence use exact reals; IEEE rounding and NaN beyond "null" are not modelled.
- Datetimes: `pd.to_datetime(..., unit='ms')` is kept as the millisecond count; the out-of-range error pandas raises for instants beyond its datetime range is not modelled.
- Column order and column names: frames carry a set of column names, and the one-hot indicators are maps keyed by value, so the order of columns and the `navDesc_<value>` naming of `get_dummies` are not modelled.
- Value types: `Int(1)` and `Num(1.0)` are distinct values, so they fall in different `navCode` groups and different indicator columns, whereas pandas upcasts an integer column with missing entries to floats and treats them as one. The model takes the values of one field to share one type.
- The zero-row frame at `src/preprocessing.py:40`: when no row survives the fence, pandas gives the empty frame the index of the assigned detail column, and the `dropna` at `src/preprocessing.py:45` then removes those all-null rows again. The model keeps the frame empty throughout; the output is the same empty table.
- Mixed-type categories: `get_dummies` sorting categories of incomparable types is not modelled.
- Nested fields that are not mappings: every `navigation` and `vesselDetails` entry is a mapping from field name to value.
- Column selection in `feature_engineering` cannot fail here: its input is the preprocessed table, which always has the four columns.
