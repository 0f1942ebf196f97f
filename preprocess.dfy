/** The preprocessing of the transactions frame before it is ingested
    (A5/run_part1.py:49-51): sort by `source`, keep the first 10000 rows,
    align the timestamps to a two-day window, sort by timestamp. */
module Preprocess {
  import opened Errors
  import opened Cells
  import opened Frames
  import opened Duration
  import opened Timespan
  import opened Labels

  const SourceColumn: string := "source"
  const MaxRows: nat := 10000
  const TransactionsPeriod: string := "2d"

  /** The transactions frame handed to ingestion. It is an error only when
      the frame has no `source` column or its values cannot be ordered;
      then it has at most 10000 rows, the same columns, and is in
      non-decreasing timestamp order. */
  function PrepareTransactions(f: Frame, now: Time): (r: Result<Frame>)
    requires WellFormed(f)
    ensures r.Err? <==> SourceColumn !in f.columns || !Orderable(Column(f, SourceColumn))
    ensures r.Err? ==> r.error == (if SourceColumn !in f.columns then KeyError(SourceColumn) else TypeError(SourceColumn))
    ensures r.Ok? ==> WellFormed(r.value) && r.value.columns == f.columns
    ensures r.Ok? ==> |r.value.rows| <= MaxRows
    ensures r.Ok? ==> forall i, j :: 0 <= i < j < |r.value.rows| ==>
              r.value.rows[i].timestamp <= r.value.rows[j].timestamp
  {
    var bySource :- SortValues(f, SourceColumn);
    var head := Head(bySource, MaxRows);
    TwoDays();
    var aligned := AdjustSpec(head.rows, TransactionsPeriod, now).value;
    AlignedFrameWellFormed(head, 2 * MicrosPerDay, now);
    Ok(SortByTimestamp(Frame(f.columns, aligned)))
  }

  /** Every row handed to ingestion lies in `[now - 2 days, now - 5 min]`. */
  lemma PreparedWithinWindow(f: Frame, now: Time)
    requires WellFormed(f) && PrepareTransactions(f, now).Ok?
    ensures var rows := PrepareTransactions(f, now).value.rows;
            forall k :: 0 <= k < |rows| ==>
              now - 2 * MicrosPerDay <= rows[k].timestamp <= now - SafetyMargin
  {
    var bySource := SortValues(f, SourceColumn).value;
    var head := Head(bySource, MaxRows);
    TwoDays();
    var aligned := Aligned(head.rows, 2 * MicrosPerDay, now);
    AlignedWithinWindow(head.rows, 2 * MicrosPerDay, now);
    AlignedFrameWellFormed(head, 2 * MicrosPerDay, now);
    var rows := PrepareTransactions(f, now).value.rows;
    assert rows == SortByTimestamp(Frame(f.columns, aligned)).rows;
    forall k | 0 <= k < |rows|
      ensures now - 2 * MicrosPerDay <= rows[k].timestamp <= now - SafetyMargin
    {
      assert rows[k] in multiset(aligned);
    }
  }

  /** The rows `adjust_data_timespan` receives: the first 10000 rows of
      the frame sorted by source. */
  function SelectedRows(f: Frame): seq<Row>
    requires WellFormed(f) && SortValues(f, SourceColumn).Ok?
  {
    Head(SortValues(f, SourceColumn).value, MaxRows).rows
  }

  /** The prepared rows are the aligned selected rows, reordered. */
  lemma PreparedIsAlignedSelection(f: Frame, now: Time)
    requires WellFormed(f) && PrepareTransactions(f, now).Ok?
    ensures SortValues(f, SourceColumn).Ok?
    ensures multiset(PrepareTransactions(f, now).value.rows)
            == multiset(Aligned(SelectedRows(f), 2 * MicrosPerDay, now))
  {
    var head := Head(SortValues(f, SourceColumn).value, MaxRows);
    TwoDays();
    AlignedFrameWellFormed(head, 2 * MicrosPerDay, now);
  }

  /** The offset the alignment added to every selected row:
      `now - max - 5 min` over the selected rows. */
  function Offset(f: Frame, now: Time): int
    requires WellFormed(f) && SortValues(f, SourceColumn).Ok?
  {
    if SelectedRows(f) == [] then 0 else ShiftAmount(SelectedRows(f), now)
  }

  lemma SelectedRowFromInput(f: Frame, now: Time, x: Row)
    requires WellFormed(f) && SortValues(f, SourceColumn).Ok?
    requires x in Aligned(SelectedRows(f), 2 * MicrosPerDay, now)
    ensures |SelectedRows(f)| > 0
    ensures ShiftRow(x, -ShiftAmount(SelectedRows(f), now)) in f.rows
    ensures ShiftRow(x, -Offset(f, now)) in f.rows
  {
    var sel := SelectedRows(f);
    AlignedRowFromInput(sel, 2 * MicrosPerDay, now, x);
    var y := ShiftRow(x, -ShiftAmount(sel, now));
    var bySource := SortValues(f, SourceColumn).value;
    assert y in bySource.rows;
    assert y in multiset(f.rows);
  }

  /** Every row handed to ingestion is a row of the input frame moved by
      the one common offset, its other columns unchanged. */
  lemma PreparedRowsComeFromInput(f: Frame, now: Time)
    requires WellFormed(f) && PrepareTransactions(f, now).Ok?
    ensures SortValues(f, SourceColumn).Ok?
    ensures forall x :: x in PrepareTransactions(f, now).value.rows ==>
              ShiftRow(x, -Offset(f, now)) in f.rows
  {
    var rows := PrepareTransactions(f, now).value.rows;
    PreparedIsAlignedSelection(f, now);
    var aligned := Aligned(SelectedRows(f), 2 * MicrosPerDay, now);
    forall x | x in rows ensures ShiftRow(x, -Offset(f, now)) in f.rows {
      assert x in multiset(aligned);
      SelectedRowFromInput(f, now, x);
    }
  }

  /** The label frame built from the prepared transactions has one row per
      transaction, at most 10000, in non-decreasing timestamp order. */
  lemma LabelsOfPrepared(f: Frame, now: Time)
    requires WellFormed(f) && PrepareTransactions(f, now).Ok?
    requires CreateLabels(PrepareTransactions(f, now).value).Ok?
    ensures var ls := CreateLabels(PrepareTransactions(f, now).value).value;
            && |ls| <= MaxRows
            && forall i, j :: 0 <= i < j < |ls| ==> ls[i].timestamp <= ls[j].timestamp
  {
    LabelsKeepTimestampOrder(PrepareTransactions(f, now).value);
  }
}
