/** Imputation and labelling: the column operations predict performs on the
    loaded table once a model is available. */
module Prediction {
  import opened Wrappers
  import opened Records
  import opened Columns
  import opened Risk
  import opened Training

  /** One output record: the loaded row plus the Predicted_Exam5,
      Risk_Level and Is_Predicted columns. */
  datatype EnrichedRecord = EnrichedRecord(
    record: StudentRecord,
    predictedExam5: real,
    riskLevel: RiskLevel,
    isPredicted: bool)

  /** `df['Exam5'].isnull()`. */
  function MissingMask(rows: seq<StudentRecord>): seq<bool> {
    seq(|rows|, i requires 0 <= i < |rows| => rows[i].exam5.None?)
  }

  /** The resolved score of a row: its actual Exam5 when known, otherwise
      the model's value on its four exams rounded to one decimal. */
  function Resolved(m: LinearModel, rec: StudentRecord): real {
    match rec.exam5
    case Some(v) => v
    case None => Round1(m.Apply(rec.exams))
  }

  /** `out` is the enriched table for `rows` under model `m`: one record per
      row in load order, the row itself unchanged, the resolved score, the
      tier of that score, and the flag saying whether Exam5 was missing. */
  ghost predicate IsEnrichment(m: LinearModel, rows: seq<StudentRecord>, out: seq<EnrichedRecord>) {
    && |out| == |rows|
    && forall i :: 0 <= i < |rows| ==>
         && out[i].record == rows[i]
         && out[i].isPredicted == rows[i].exam5.None?
         && out[i].predictedExam5 == Resolved(m, rows[i])
         && out[i].riskLevel == CalculateRisk(out[i].predictedExam5)
  }

  /** Copies Exam5 into a fresh Predicted_Exam5 column, overwrites the masked
      entries with the rounded predictions for the masked rows, fills
      Risk_Level from the resolved column and returns the rows as records. */
  method Impute(m: LinearModel, rows: seq<StudentRecord>) returns (out: seq<EnrichedRecord>)
    ensures IsEnrichment(m, rows, out)
  {
    var missing := MissingMask(rows);
    var column := CopyTarget(rows);
    if Count(missing) > 0 {
      OverwriteMissing(m, rows, column);
    } else {
      forall j | 0 <= j < |rows| ensures column[j] == Some(Resolved(m, rows[j])) {
        CountZero(missing, j);
      }
    }
    var risk := RiskColumn(m, rows, column);
    out := ToRecords(m, rows, column, risk);
  }

  /** `df['Predicted_Exam5'] = df['Exam5']`: a new column holding the target. */
  method CopyTarget(rows: seq<StudentRecord>) returns (column: array<Option<real>>)
    ensures fresh(column)
    ensures column[..] == seq(|rows|, j requires 0 <= j < |rows| => rows[j].exam5)
  {
    column := new Option<real>[|rows|];
    var i := 0;
    while i < |rows|
      invariant 0 <= i <= |rows|
      invariant forall j :: 0 <= j < i ==> column[j] == rows[j].exam5
    {
      column[i] := rows[i].exam5;
      i := i + 1;
    }
  }

  /** `df.loc[mask, 'Predicted_Exam5'] = np.round(model.predict(X_pred), 1)`:
      the k-th rounded prediction for the masked rows is written to the k-th
      masked row, and no other entry changes. */
  method OverwriteMissing(m: LinearModel, rows: seq<StudentRecord>, column: array<Option<real>>)
    requires column[..] == seq(|rows|, j requires 0 <= j < |rows| => rows[j].exam5)
    modifies column
    ensures forall j :: 0 <= j < |rows| ==> column[j] == Some(Resolved(m, rows[j]))
  {
    var n := |rows|;
    var missing := MissingMask(rows);
    var xPred := Select(Features(rows), missing);
    var predictions := PredictAll(m, xPred);
    var i, k := 0, 0;
    while i < n
      invariant 0 <= i <= n
      invariant k == Count(missing[..i])
      invariant forall j :: 0 <= j < i ==> column[j] == Some(Resolved(m, rows[j]))
      invariant forall j :: i <= j < n ==> column[j] == rows[j].exam5
    {
      if missing[i] {
        SelectAt(Features(rows), missing, i);
        column[i] := Some(Round1(predictions[k]));
        k := k + 1;
      }
      CountPrefix(missing, i);
      i := i + 1;
    }
  }

  /** `df['Risk_Level'] = df['Predicted_Exam5'].apply(_calculate_risk)`. */
  method RiskColumn(m: LinearModel, rows: seq<StudentRecord>, column: array<Option<real>>)
    returns (risk: array<RiskLevel>)
    requires column.Length == |rows|
    requires forall j :: 0 <= j < |rows| ==> column[j] == Some(Resolved(m, rows[j]))
    ensures fresh(risk) && risk.Length == |rows|
    ensures forall j :: 0 <= j < |rows| ==> risk[j] == CalculateRisk(Resolved(m, rows[j]))
  {
    risk := new RiskLevel[|rows|];
    var i := 0;
    while i < |rows|
      invariant 0 <= i <= |rows|
      invariant forall j :: 0 <= j < i ==> risk[j] == CalculateRisk(Resolved(m, rows[j]))
    {
      risk[i] := CalculateRisk(column[i].value);
      i := i + 1;
    }
  }

  /** `df['Is_Predicted'] = mask_missing` and `df.to_dict(orient='records')`:
      one record per row, in load order. */
  method ToRecords(m: LinearModel, rows: seq<StudentRecord>, column: array<Option<real>>, risk: array<RiskLevel>)
    returns (out: seq<EnrichedRecord>)
    requires column.Length == |rows| && risk.Length == |rows|
    requires forall j :: 0 <= j < |rows| ==> column[j] == Some(Resolved(m, rows[j]))
    requires forall j :: 0 <= j < |rows| ==> risk[j] == CalculateRisk(Resolved(m, rows[j]))
    ensures IsEnrichment(m, rows, out)
  {
    out := [];
    var i := 0;
    while i < |rows|
      invariant 0 <= i <= |rows|
      invariant |out| == i
      invariant forall j :: 0 <= j < i ==>
                  out[j] == EnrichedRecord(rows[j], Resolved(m, rows[j]),
                                           CalculateRisk(Resolved(m, rows[j])), rows[j].exam5.None?)
    {
      out := out + [EnrichedRecord(rows[i], column[i].value, risk[i], rows[i].exam5.None?)];
      i := i + 1;
    }
  }

  /** Every row is either predicted or used for training, never both: the
      rows `isnull` flags and the rows `dropna` keeps add up to the table. */
  lemma MissingAndKnownPartition(rows: seq<StudentRecord>)
    ensures Count(MissingMask(rows)) + Count(KnownMask(rows)) == |rows|
  {
    CountComplement(MissingMask(rows), KnownMask(rows));
  }

  /** The enriched table is determined by the model and the rows, so two
      predictions over the same data with the same model agree record by
      record. */
  lemma EnrichmentUnique(m: LinearModel, rows: seq<StudentRecord>, a: seq<EnrichedRecord>, b: seq<EnrichedRecord>)
    requires IsEnrichment(m, rows, a) && IsEnrichment(m, rows, b)
    ensures a == b
  {
  }

  /** A predicted score is within 0.05 of the model's value and has one
      decimal place; an actual score is reported as it was loaded. */
  lemma ResolvedScore(m: LinearModel, rows: seq<StudentRecord>, out: seq<EnrichedRecord>, i: nat)
    requires IsEnrichment(m, rows, out) && i < |rows|
    ensures rows[i].exam5.Some? ==> !out[i].isPredicted && out[i].predictedExam5 == rows[i].exam5.value
    ensures rows[i].exam5.None? ==>
              out[i].isPredicted &&
              -0.05 <= out[i].predictedExam5 - m.Apply(rows[i].exams) <= 0.05 &&
              (out[i].predictedExam5 * 10.0).Floor as real == out[i].predictedExam5 * 10.0
  {
  }
}
