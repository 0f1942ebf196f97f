/** `create_labels` (A5/run_part1.py:158-163): the label frame ingested
    for training, one row per input row holding `int(fraud)` as `label`
    and the row's timestamp. */
module Labels {
  import opened Errors
  import opened Cells
  import opened Frames

  const FraudColumn: string := "fraud"

  /** A row of the label frame. Its only columns are `label` (the field
      `labelValue`, since `label` is a Dafny keyword) and `timestamp`. */
  datatype LabelRow = LabelRow(labelValue: int, timestamp: Time)

  /** `astype(int)` on the fraud values of `rows`, keeping timestamps; the
      first value `int` rejects is the error. */
  function CastLabels(rows: seq<Row>): (r: Result<seq<LabelRow>>)
    requires forall i :: 0 <= i < |rows| ==> FraudColumn in rows[i].cells
    ensures r.Ok? <==> forall i :: 0 <= i < |rows| ==> CellToInt(rows[i].cells[FraudColumn]).Ok?
    ensures r.Err? ==> r.error.ValueError?
    ensures r.Ok? ==> |r.value| == |rows|
    ensures r.Ok? ==> forall i :: 0 <= i < |rows| ==>
              && r.value[i].timestamp == rows[i].timestamp
              && Ok(r.value[i].labelValue) == CellToInt(rows[i].cells[FraudColumn])
  {
    if rows == [] then Ok([])
    else
      var last := rows[|rows| - 1];
      var prefix := rows[..|rows| - 1];
      assert forall i :: 0 <= i < |prefix| ==> prefix[i] == rows[i];
      var before :- CastLabels(prefix);
      var v :- CellToInt(last.cells[FraudColumn]);
      Ok(before + [LabelRow(v, last.timestamp)])
  }

  /** `create_labels(df)`: KeyError when the frame has no `fraud` column,
      the error of `int` on a value it rejects, otherwise one label row per
      input row, in input order. The input frame is a value and is left as
      it was, as the source's `.copy()` ensures. */
  function CreateLabels(f: Frame): (r: Result<seq<LabelRow>>)
    requires WellFormed(f)
    ensures FraudColumn !in f.columns ==> r == Err(KeyError(FraudColumn))
    ensures r.Err? && FraudColumn in f.columns ==> r.error.ValueError?
    ensures r.Ok? <==>
              && FraudColumn in f.columns
              && forall i :: 0 <= i < |f.rows| ==> CellToInt(f.rows[i].cells[FraudColumn]).Ok?
    ensures r.Ok? ==> |r.value| == |f.rows|
    ensures r.Ok? ==> forall i :: 0 <= i < |f.rows| ==>
              && r.value[i].timestamp == f.rows[i].timestamp
              && Ok(r.value[i].labelValue) == CellToInt(f.rows[i].cells[FraudColumn])
  {
    if FraudColumn !in f.columns then Err(KeyError(FraudColumn))
    else CastLabels(f.rows)
  }

  /** Labels keep the input's row order, so a frame sorted by timestamp
      gives labels sorted by timestamp. */
  lemma LabelsKeepTimestampOrder(f: Frame)
    requires WellFormed(f) && CreateLabels(f).Ok?
    requires forall i, j :: 0 <= i < j < |f.rows| ==> f.rows[i].timestamp <= f.rows[j].timestamp
    ensures var ls := CreateLabels(f).value;
            forall i, j :: 0 <= i < j < |ls| ==> ls[i].timestamp <= ls[j].timestamp
  {
  }

  /** Integer and boolean fraud flags always cast: 0/1 integers stay as
      they are and `True`/`False` become 1/0. */
  lemma FlagsAlwaysCast(f: Frame)
    requires WellFormed(f) && FraudColumn in f.columns
    requires forall i :: 0 <= i < |f.rows| ==>
               f.rows[i].cells[FraudColumn].Int? || f.rows[i].cells[FraudColumn].Bool?
    ensures CreateLabels(f).Ok?
    ensures forall i :: 0 <= i < |f.rows| && f.rows[i].cells[FraudColumn].Bool? ==>
              CreateLabels(f).value[i].labelValue == (if f.rows[i].cells[FraudColumn].b then 1 else 0)
  {
  }

  /** One missing fraud value makes the whole cast fail. */
  lemma MissingFlagIsError(f: Frame, i: nat)
    requires WellFormed(f) && FraudColumn in f.columns
    requires i < |f.rows| && f.rows[i].cells[FraudColumn].Missing?
    ensures CreateLabels(f).Err?
  {
  }
}
