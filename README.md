# Student performance prediction: a Dafny model of `PerformanceModel`

This project models the prediction pipeline of `PerformanceModel`. The
pipeline estimates a student's missing final exam score (`Exam5`) from the four
earlier scores (`Exam1`..`Exam4`). It then puts every student into one of three
risk tiers. The model covers:

- **Loading** (`load_data`). The SQL table is used when the query succeeds.
  Otherwise the CSV file is used if a data path was given. Otherwise the SQL
  error is raised again. A data path that is `None` or the empty string counts
  as not given, following Python truthiness.
- **Training** (`train`). The training rows are those with a non-null `Exam5`.
  With no `Exam5` column, or fewer than two such rows, the fixed weights
  `[0.25, 0.25, 0.25, 0.25]`, intercept `0.0` and `r2 = 0.0` are installed.
  Otherwise the least-squares solver is run on those rows, and the metrics
  record its weights, intercept and in-sample R².
- **Lazy training** (`predict`). `predict` trains only while no model is held.
  After that it reuses the held model, even though it reloads the data on
  every call.
- **Imputation and labelling** (`predict`). `Exam5` is copied into
  `Predicted_Exam5`. Only the rows where `Exam5` is missing are overwritten
  with the rounded prediction, the k-th prediction going to the k-th missing
  row. `Risk_Level` is the tier of `Predicted_Exam5` on every row.
  `Is_Predicted` is the missing mask. One record is returned per loaded row,
  in load order.
- **Risk classifier** (`_calculate_risk`). Below 50 is High, from 50 up to 75
  is Moderate, and 75 or more is Low.

Modules: `Wrappers` (Option, Result), `Risk`, `Records` (rows, tables, the
linear model, rounding), `Columns` (boolean masks and masked selection),
`Training`, `Prediction`, `Model` (the `PerformanceModel` class) and
`Example` (a worked three-student table).

External inputs are parameters:
- A `Snapshot` is what the SQL query and the CSV read would return at the
  moment of one load.
- An `Estimator` holds the least-squares solver and the R² scorer as
  functions. The model assumes only that both are total, deterministic
  functions.

`Predict` takes two snapshots. `trainSnap` is read by the lazy training, and
`snap` by the prediction itself. The source loads the data twice on a first
call, and the two loads need not agree.

Facts about the program that shape the model:
- `Estimator.fit` never fails. The least-squares call at model.py:65 is not
  guarded, and nothing in model.py reports a failed fit.
- model.py has no check for missing predictor values.
- There is no lock around the `if not self.model` test at model.py:77.
- `train` is public and may be called at any time, and each call replaces
  the model and the metrics. app.py:14 calls it on every request to `/`.
- `predict` on a table without an `Exam5` column fails with
  `TargetColumnMissing`. This is the `KeyError` raised by `df['Exam5']` at
  model.py:83. A model trained during that same call stays installed.

## Model

| member | source | states |
|---|---|---|
| `Risk.CalculateRisk` | StudentPerformancePrediction/model.py:112-118 | High exactly when the score is below 50, Moderate exactly when it is in [50, 75), Low exactly when it is at least 75 |
| `Risk.RiskMonotone` | StudentPerformancePrediction/model.py:112-118 | a higher score never gives a more severe tier |
| `Risk.RiskBoundaries` | StudentPerformancePrediction/model.py:113-118 | 50 is Moderate, 75 is Low, 49.999 is High, 74.999 is Moderate |
| `Risk.LabelInjective` | StudentPerformancePrediction/model.py:112-118 | the three tiers have distinct labels |
| `Records.Round1` | StudentPerformancePrediction/model.py:93 | the rounded value is within 0.05 of the input and has one decimal place |
| `Records.Round1Idempotent` | StudentPerformancePrediction/model.py:93 | rounding an already rounded value changes nothing |
| `Columns.Select` | StudentPerformancePrediction/model.py:44 | the selection has as many entries as the mask has true entries |
| `Columns.SelectAt` | StudentPerformancePrediction/model.py:91-93 | a masked row sits in the selection at the position given by the number of masked rows before it |
| `Columns.SelectFrom` | StudentPerformancePrediction/model.py:44 | every selected entry comes from a masked row |
| `Columns.CountZero` | StudentPerformancePrediction/model.py:90 | a mask that is not `any()` is false on every row |
| `Training.TrainingRows` | StudentPerformancePrediction/model.py:41-46 | every training row has a known Exam5 |
| `Training.TrainingRowsExact` | StudentPerformancePrediction/model.py:41-46 | the training rows are exactly the known-Exam5 rows, and none when the column is absent; each is kept in load order |
| `Training.Fitted` | StudentPerformancePrediction/model.py:48-71 | the metrics' coefficients and intercept equal the installed model's |
| `Training.FallbackWhenScarce` | StudentPerformancePrediction/model.py:50-59 | with no Exam5 column or fewer than 2 known values, the model is [0.25, 0.25, 0.25, 0.25] with intercept 0.0 and the metrics are r2 0.0, those weights and 0.0 |
| `Training.FitWhenEnough` | StudentPerformancePrediction/model.py:61-71 | with at least 2 known values, the solver is run on the training rows' exams and targets, and r2 scores the model's own predictions on them |
| `Training.FallbackIsAverage` | StudentPerformancePrediction/model.py:52-54 | the fallback model predicts the mean of the four exams |
| `Prediction.MissingAndKnownPartition` | StudentPerformancePrediction/model.py:83 | the rows flagged by `isnull` and the rows kept by the training `dropna` together number exactly the rows of the table |
| `Prediction.Impute` | StudentPerformancePrediction/model.py:83-109 | one record per row in load order: the row unchanged, the actual Exam5 where known, the rounded model value where missing, the tier of that score, and the missing flag |
| `Prediction.CopyTarget` | StudentPerformancePrediction/model.py:87 | a new column equal to the Exam5 column |
| `Prediction.OverwriteMissing` | StudentPerformancePrediction/model.py:89-93 | after the masked overwrite, every entry is the row's resolved score: known entries unchanged, missing ones the rounded prediction for that row |
| `Prediction.RiskColumn` | StudentPerformancePrediction/model.py:96 | each row's tier is the tier of its resolved score, actual or predicted |
| `Prediction.ToRecords` | StudentPerformancePrediction/model.py:98-109 | the records combine the row, the resolved score, its tier and the missing mask, in load order |
| `Prediction.EnrichmentUnique` | StudentPerformancePrediction/model.py:75-110 | the output is determined by the model and the rows |
| `Prediction.ResolvedScore` | StudentPerformancePrediction/model.py:87-93 | a known score is reported unflagged and unchanged; a predicted one is flagged, within 0.05 of the model's value and has one decimal |
| `Model.PerformanceModel.constructor` | StudentPerformancePrediction/model.py:10-15 | no model and empty metrics at construction |
| `Model.PerformanceModel.LoadData` | StudentPerformancePrediction/model.py:25-35 | the load succeeds exactly when SQL does or a path is given and the CSV reads; the CSV is used only after SQL fails; with no path the SQL error is raised again |
| `Model.PerformanceModel.Train` | StudentPerformancePrediction/model.py:37-73 | a failed load changes nothing; otherwise the model and metrics become the training policy's outcome for the loaded table and the metrics are returned |
| `Model.PerformanceModel.Predict` | StudentPerformancePrediction/model.py:75-110 | a held model is never replaced; with none, it trains first and stops on a failed load; then it fails on a failed load or a missing Exam5 column, and otherwise returns the enrichment of the freshly loaded rows under the held model |
| `Model.PredictTwice` | StudentPerformancePrediction/model.py:77-80 | a second predict over the same data returns the same records as a successful first one, whatever training data it is offered |
| `Example.ExampleTrainsOnKnownRows` | StudentPerformancePrediction/model.py:41-71 | on the three-student table, training uses students 1 and 2 and passes their exams and scores to the solver |
| `Example.ExampleLabels` | StudentPerformancePrediction/model.py:83-99 | on that table, students 1 and 2 keep 92 (Low) and 38 (High); student 3 is predicted with its rounded model value |

## Left out

- The least-squares solve and `r2_score` are foreign numeric library calls. They are the `Estimator` parameter, and no optimality or bound on R² is stated.
- Floating point is not modelled. Scores, weights and predictions are exact reals.
- `Records.Round1` is numpy's round-half-to-even at one decimal over exact reals. It ignores binary representation effects.
- Database and file I/O (`create_engine`, `read_sql`, `read_csv`) are not modelled. A `Snapshot` gives their outcomes, and error messages are opaque strings.
- Rows are the identifier, four exam scores and an optional `Exam5`. Missing predictor values and missing exam columns are not modelled. Neither are other columns, or the pandas errors they would cause.
- `Model.PerformanceModel.Train`: returns the metrics as an immutable value. In the source, `train` returns the `self.metrics` dictionary itself (model.py:73), and a later `train` overwrites its entries in place (model.py:57-59, 69-71). So metrics that a caller already holds change on the next training. The model does not capture that aliasing.
- `fillna('')` before returning (model.py:102) is a display coercion and is not modelled. Records keep `Exam5` as an Option.
- `get_all_students` (model.py:120-127) is not modelled. It is the loaded table after the same display coercion.
- The printed messages and the `__main__` demo block (model.py:129-164) are console output and are not modelled.
- The database connection settings (model.py:17-23) are not modelled beyond the `Snapshot`.
- sql.py, eda.py and app.py are not part of this model. They are database provisioning, plotting and web routes.
- There is no concurrency. The lazy-training check in the source is a single-threaded test of `self.model`.
