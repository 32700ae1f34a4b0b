/** The PerformanceModel object: where the data comes from, the lazily
    trained model it holds, and the train and predict operations. */
module Model {
  import opened Wrappers
  import opened Records
  import opened Training
  import opened Prediction

  /** What the two data sources would give at the moment of one load: the
      SQL query of the students table and the read of the CSV file. */
  datatype Snapshot = Snapshot(sql: Result<Table, string>, csv: Result<Table, string>)

  /** The exception a load raises: the SQL one re-raised, or the CSV one. */
  datatype LoadError = SqlFailed(reason: string) | CsvFailed(reason: string)

  /** The exceptions predict lets through. */
  datatype PredictError = LoadFailed(cause: LoadError) | TargetColumnMissing

  /** Python truthiness of `data_path`: neither None nor the empty string. */
  predicate PathGiven(dataPath: Option<string>) {
    dataPath.Some? && dataPath.value != ""
  }

  class PerformanceModel {
    const dataPath: Option<string>
    /** `self.model`: None until the first train. */
    var model: Option<LinearModel>
    /** `self.metrics`: None stands for the empty dictionary. */
    var metrics: Option<Metrics>

    /** The model and the metrics are installed together, and the metrics
        report the installed model's weights and intercept. */
    ghost predicate Valid()
      reads this
    {
      match model
      case None => metrics.None?
      case Some(m) => metrics.Some? && metrics.value.coefficients == m.coef
                      && metrics.value.intercept == m.intercept
    }

    constructor (dataPath: Option<string>)
      ensures Valid()
      ensures this.dataPath == dataPath && model.None? && metrics.None?
    {
      this.dataPath := dataPath;
      model := None;
      metrics := None;
    }

    /** The SQL table when the query succeeds; otherwise the CSV when a data
        path was given, and if none was, the SQL error again. */
    function LoadData(snap: Snapshot): (r: Result<Table, LoadError>)
      ensures r.Success? <==> snap.sql.Success? || (PathGiven(dataPath) && snap.csv.Success?)
      ensures snap.sql.Success? ==> r == Success(snap.sql.value)
      ensures r.Success? && snap.sql.Failure? ==> r.value == snap.csv.value
      ensures r.Failure? && !PathGiven(dataPath) ==> r.error == SqlFailed(snap.sql.error)
      ensures r.Failure? && PathGiven(dataPath) ==> r.error == CsvFailed(snap.csv.error)
    {
      match snap.sql
      case Success(t) => Success(t)
      case Failure(e) =>
        if PathGiven(dataPath) then
          match snap.csv
          case Success(t) => Success(t)
          case Failure(e') => Failure(CsvFailed(e'))
        else Failure(SqlFailed(e))
    }

    /** Loads the table and installs either the fitted model or the fallback
        weights, returning the metrics; a failed load changes nothing. */
    method Train(snap: Snapshot, est: Estimator) returns (r: Result<Metrics, LoadError>)
      requires Valid()
      modifies this
      ensures Valid()
      ensures match LoadData(snap)
              case Failure(e) =>
                r == Failure(e) && model == old(model) && metrics == old(metrics)
              case Success(t) =>
                && model == Some(Fitted(t, est).model)
                && metrics == Some(Fitted(t, est).metrics)
                && r == Success(Fitted(t, est).metrics)
    {
      var loaded := LoadData(snap);
      if loaded.Failure? {
        return Failure(loaded.error);
      }
      var df := loaded.value;
      var trainData := TrainingRows(df);
      if |trainData| < 2 {
        model := Some(FallbackModel);
        metrics := Some(Metrics(0.0, FallbackModel.coef, FallbackModel.intercept));
      } else {
        var x := Features(trainData);
        var y := Targets(trainData);
        var fitted := est.fit(x, y);
        var yPred := PredictAll(fitted, x);
        model := Some(fitted);
        metrics := Some(Metrics(est.r2Score(y, yPred), fitted.coef, fitted.intercept));
      }
      r := Success(metrics.value);
    }

    /** Trains from `trainSnap` only while no model is held, then loads
        `snap` and imputes and labels every row with the held model. A model
        already held is never replaced, however the data has changed. */
    method Predict(trainSnap: Snapshot, snap: Snapshot, est: Estimator)
      returns (r: Result<seq<EnrichedRecord>, PredictError>)
      requires Valid()
      modifies this
      ensures Valid()
      ensures old(model).Some? ==> model == old(model) && metrics == old(metrics)
      ensures old(model).None? ==>
                match LoadData(trainSnap)
                case Failure(e) =>
                  r == Failure(LoadFailed(e)) && model.None? && metrics.None?
                case Success(t) =>
                  model == Some(Fitted(t, est).model) && metrics == Some(Fitted(t, est).metrics)
      ensures model.Some? ==>
                match LoadData(snap)
                case Failure(e) => r == Failure(LoadFailed(e))
                case Success(t) =>
                  if t.hasTarget then r.Success? && IsEnrichment(model.value, t.rows, r.value)
                  else r == Failure(TargetColumnMissing)
    {
      if model.None? {
        var trained := Train(trainSnap, est);
        if trained.Failure? {
          return Failure(LoadFailed(trained.error));
        }
      }
      var loaded := LoadData(snap);
      if loaded.Failure? {
        return Failure(LoadFailed(loaded.error));
      }
      var df := loaded.value;
      if !df.hasTarget {
        return Failure(TargetColumnMissing);
      }
      var records := Impute(model.value, df.rows);
      r := Success(records);
    }
  }

  /** Two predictions over the same data give identical records, whether or
      not the first one trained, and the second never consults its own
      training snapshot. */
  method PredictTwice(pm: PerformanceModel, trainSnap: Snapshot, otherTrainSnap: Snapshot,
                      snap: Snapshot, est: Estimator)
    returns (first: Result<seq<EnrichedRecord>, PredictError>,
             second: Result<seq<EnrichedRecord>, PredictError>)
    requires pm.Valid()
    modifies pm
    ensures first.Success? ==> second == first
  {
    first := pm.Predict(trainSnap, snap, est);
    ghost var held := pm.model;
    second := pm.Predict(otherTrainSnap, snap, est);
    if first.Success? {
      EnrichmentUnique(held.value, pm.LoadData(snap).value.rows, first.value, second.value);
    }
  }
}
