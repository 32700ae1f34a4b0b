/** A worked three-student table: two students with a known Exam5 and one
    without. */
module Example {
  import opened Wrappers
  import opened Records
  import opened Columns
  import opened Training
  import opened Prediction
  import opened Risk

  function ExampleTable(): Table {
    Table(true, [
      StudentRecord(1, [80.0, 85.0, 90.0, 88.0], Some(92.0)),
      StudentRecord(2, [40.0, 45.0, 50.0, 42.0], Some(38.0)),
      StudentRecord(3, [60.0, 65.0, 70.0, 68.0], None)])
  }

  /** Training uses students 1 and 2 only, so the solver runs and is given
      their exams and their Exam5 values. */
  lemma ExampleTrainsOnKnownRows(est: Estimator)
    ensures TrainingRows(ExampleTable()) == ExampleTable().rows[..2]
    ensures Fitted(ExampleTable(), est).model
            == est.fit([[80.0, 85.0, 90.0, 88.0], [40.0, 45.0, 50.0, 42.0]], [92.0, 38.0])
  {
    var rows := ExampleTable().rows;
    var mask := KnownMask(rows);
    assert mask == [true, true, false];
    var r2, m2 := rows[..2], mask[..2];
    var r1, m1 := r2[..1], m2[..1];
    assert r1[..0] == [] && m1[..0] == [];
    assert Select(r1, m1) == [rows[0]];
    assert Select(r2, m2) == [rows[0], rows[1]];
    var train := Select(rows, mask);
    assert train == [rows[0], rows[1]];
    assert rows[..2] == [rows[0], rows[1]];
    assert Features(train) == [[80.0, 85.0, 90.0, 88.0], [40.0, 45.0, 50.0, 42.0]];
    assert Targets(train) == [92.0, 38.0];
  }

  /** Students 1 and 2 keep their actual scores and tiers; student 3 is
      flagged as predicted and its tier is that of its rounded prediction. */
  lemma ExampleLabels(m: LinearModel, out: seq<EnrichedRecord>)
    requires IsEnrichment(m, ExampleTable().rows, out)
    ensures !out[0].isPredicted && out[0].predictedExam5 == 92.0 && out[0].riskLevel == LowRisk
    ensures !out[1].isPredicted && out[1].predictedExam5 == 38.0 && out[1].riskLevel == HighRisk
    ensures out[2].isPredicted
    ensures out[2].predictedExam5 == Round1(m.Apply([60.0, 65.0, 70.0, 68.0]))
  {
  }
}
