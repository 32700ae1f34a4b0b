/** The student table, the linear model and the training metrics. */
module Records {
  import opened Wrappers

  /** The four predictor scores Exam1..Exam4, in column order. */
  type Vec4 = s: seq<real> | |s| == 4 witness [0.0, 0.0, 0.0, 0.0]

  /** One row of the students table; `exam5` is None where the cell is null. */
  datatype StudentRecord = StudentRecord(studentId: int, exams: Vec4, exam5: Option<real>)

  /** A loaded table: whether it has an Exam5 column at all, and its rows in
      load order. When `hasTarget` is false the rows' `exam5` is not consulted. */
  datatype Table = Table(hasTarget: bool, rows: seq<StudentRecord>)

  /** A linear regressor: one weight per predictor and an intercept. */
  datatype LinearModel = LinearModel(coef: Vec4, intercept: real) {
    /** intercept + sum of coef[i] * x[i]. */
    function Apply(x: Vec4): real {
      intercept + coef[0] * x[0] + coef[1] * x[1] + coef[2] * x[2] + coef[3] * x[3]
    }
  }

  /** The metrics dictionary once filled in: r2, coefficients, intercept. */
  datatype Metrics = Metrics(r2: real, coefficients: seq<real>, intercept: real)

  /** The feature matrix of a list of rows. */
  function Features(rows: seq<StudentRecord>): seq<Vec4> {
    seq(|rows|, i requires 0 <= i < |rows| => rows[i].exams)
  }

  /** model.predict on a feature matrix: one value per row, in order. */
  function PredictAll(m: LinearModel, xs: seq<Vec4>): seq<real> {
    seq(|xs|, k requires 0 <= k < |xs| => m.Apply(xs[k]))
  }

  /** Rounding to one decimal place as numpy does it: x * 10 is rounded to
      the nearest integer, ties going to the even one, and divided by 10. */
  function Round1(x: real): (r: real)
    ensures -0.05 <= r - x <= 0.05
    ensures (r * 10.0).Floor as real == r * 10.0
  {
    var t := x * 10.0;
    var n := t.Floor;
    var f := t - n as real;
    var k := if f < 0.5 then n else if f > 0.5 then n + 1 else if n % 2 == 0 then n else n + 1;
    assert (k as real / 10.0) * 10.0 == k as real;
    k as real / 10.0
  }

  /** Rounding leaves a value that already has one decimal place alone. */
  lemma Round1Idempotent(x: real)
    ensures Round1(Round1(x)) == Round1(x)
  {
  }
}
