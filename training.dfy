/** The training policy: which rows the regression is fitted on, and the
    fixed fallback weights used when there are too few of them. */
module Training {
  import opened Wrappers
  import opened Records
  import opened Columns

  /** The least-squares solver and the R² score, both foreign library calls:
      `fit(X, y)` gives the fitted weights and intercept, `r2Score(y, yPred)`
      the coefficient of determination. Nothing is assumed about either. */
  datatype Estimator = Estimator(
    fit: (seq<Vec4>, seq<real>) -> LinearModel,
    r2Score: (seq<real>, seq<real>) -> real)

  /** The outcome of one training run: the model and the metrics dictionary. */
  datatype Trained = Trained(model: LinearModel, metrics: Metrics)

  /** Equal weights for the four exams and no intercept. */
  const FallbackModel: LinearModel := LinearModel([0.25, 0.25, 0.25, 0.25], 0.0)

  /** True for the rows whose Exam5 is present. */
  function KnownMask(rows: seq<StudentRecord>): seq<bool> {
    seq(|rows|, i requires 0 <= i < |rows| => rows[i].exam5.Some?)
  }

  /** `df.dropna(subset=['Exam5'])` when the column exists, else no rows. */
  function TrainingRows(t: Table): (r: seq<StudentRecord>)
    ensures forall k :: 0 <= k < |r| ==> r[k].exam5.Some?
  {
    if t.hasTarget then
      var mask := KnownMask(t.rows);
      var r := Select(t.rows, mask);
      assert forall k :: 0 <= k < |r| ==> r[k].exam5.Some? by {
        forall k | 0 <= k < |r| ensures r[k].exam5.Some? {
          SelectFrom(t.rows, mask, k);
        }
      }
      r
    else []
  }

  /** The target column of rows that all have one. */
  function Targets(rows: seq<StudentRecord>): seq<real>
    requires forall k :: 0 <= k < |rows| ==> rows[k].exam5.Some?
  {
    seq(|rows|, k requires 0 <= k < |rows| => rows[k].exam5.value)
  }

  /** What one call of train installs, given the loaded table. */
  function Fitted(t: Table, est: Estimator): (f: Trained)
    ensures f.metrics.coefficients == f.model.coef
    ensures f.metrics.intercept == f.model.intercept
  {
    var train := TrainingRows(t);
    if |train| < 2 then
      Trained(FallbackModel, Metrics(0.0, FallbackModel.coef, FallbackModel.intercept))
    else
      var x := Features(train);
      var y := Targets(train);
      var m := est.fit(x, y);
      Trained(m, Metrics(est.r2Score(y, PredictAll(m, x)), m.coef, m.intercept))
  }

  /** The training rows are exactly the rows with a known Exam5 (none at all
      when the column is absent), kept in load order: row i lands at the
      position given by the number of known rows before it. */
  lemma TrainingRowsExact(t: Table)
    ensures |TrainingRows(t)| == if t.hasTarget then Count(KnownMask(t.rows)) else 0
    ensures forall x :: x in TrainingRows(t) ==> t.hasTarget && x in t.rows && x.exam5.Some?
    ensures forall i :: 0 <= i < |t.rows| && t.hasTarget && t.rows[i].exam5.Some? ==>
              Count(KnownMask(t.rows)[..i]) < |TrainingRows(t)| &&
              TrainingRows(t)[Count(KnownMask(t.rows)[..i])] == t.rows[i]
  {
    var mask := KnownMask(t.rows);
    var r := TrainingRows(t);
    forall x | x in r ensures t.hasTarget && x in t.rows && x.exam5.Some? {
      var k :| 0 <= k < |r| && r[k] == x;
      SelectFrom(t.rows, mask, k);
    }
    forall i | 0 <= i < |t.rows| && t.hasTarget && t.rows[i].exam5.Some?
      ensures Count(mask[..i]) < |r| && r[Count(mask[..i])] == t.rows[i]
    {
      SelectAt(t.rows, mask, i);
    }
  }

  /** With no Exam5 column, or fewer than two known Exam5 values, the fixed
      weights [0.25, 0.25, 0.25, 0.25], intercept 0.0 and r2 0.0 are installed. */
  lemma FallbackWhenScarce(t: Table, est: Estimator)
    requires !t.hasTarget || Count(KnownMask(t.rows)) < 2
    ensures Fitted(t, est).model == LinearModel([0.25, 0.25, 0.25, 0.25], 0.0)
    ensures Fitted(t, est).metrics == Metrics(0.0, [0.25, 0.25, 0.25, 0.25], 0.0)
  {
  }

  /** With at least two known Exam5 values the solver is run on exactly the
      training rows, and r2 scores its in-sample predictions. */
  lemma FitWhenEnough(t: Table, est: Estimator)
    requires t.hasTarget && Count(KnownMask(t.rows)) >= 2
    ensures var train := TrainingRows(t);
            var m := est.fit(Features(train), Targets(train));
            Fitted(t, est) == Trained(m, Metrics(est.r2Score(Targets(train), PredictAll(m, Features(train))), m.coef, m.intercept))
  {
  }

  /** The fallback model predicts the plain average of the four exams. */
  lemma FallbackIsAverage(x: Vec4)
    ensures FallbackModel.Apply(x) == (x[0] + x[1] + x[2] + x[3]) / 4.0
  {
  }
}
