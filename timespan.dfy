/** `adjust_data_timespan` (A5/run_part1.py:23-36): move every timestamp of
    a frame by one common offset so that the newest row lands five minutes
    before `now`, then keep the rows inside the trailing window
    `[now - delta, ...]`. `now` is a parameter instead of the wall clock. */
module Timespan {
  import opened Errors
  import opened Duration
  import opened Frames

  /** `df[timestamp_col].max()`. */
  function MaxTime(s: seq<Row>): Time
    requires |s| > 0
  {
    if |s| == 1 then s[0].timestamp
    else
      var m := MaxTime(s[..|s| - 1]);
      if s[|s| - 1].timestamp > m then s[|s| - 1].timestamp else m
  }

  /** `MaxTime` is the timestamp of some row and no row is later. */
  lemma {:induction false} MaxTimeIsMax(s: seq<Row>)
    requires |s| > 0
    ensures exists i :: 0 <= i < |s| && s[i].timestamp == MaxTime(s)
    ensures forall i :: 0 <= i < |s| ==> s[i].timestamp <= MaxTime(s)
  {
    if |s| == 1 {
      assert s[0].timestamp == MaxTime(s);
    } else {
      var p := s[..|s| - 1];
      MaxTimeIsMax(p);
      assert forall i :: 0 <= i < |p| ==> p[i] == s[i];
      var j :| 0 <= j < |p| && p[j].timestamp == MaxTime(p);
      if s[|s| - 1].timestamp <= MaxTime(p) {
        assert s[j].timestamp == MaxTime(s);
      } else {
        assert s[|s| - 1].timestamp == MaxTime(s);
      }
    }
  }

  function ShiftRow(r: Row, d: int): Row {
    r.(timestamp := r.timestamp + d)
  }

  /** `df[timestamp_col] + shift`: every row moved by `d`. */
  function Shifted(s: seq<Row>, d: int): (r: seq<Row>)
    ensures |r| == |s|
    ensures forall i :: 0 <= i < |s| ==> r[i].timestamp == s[i].timestamp + d && r[i].cells == s[i].cells
  {
    seq(|s|, i requires 0 <= i < |s| => ShiftRow(s[i], d))
  }

  /** `now - max_time - timedelta(minutes=5)`: the one offset that moves the
      newest row to five minutes before `now` and no row past it. */
  function ShiftAmount(s: seq<Row>, now: Time): (d: int)
    requires |s| > 0
    ensures forall i :: 0 <= i < |s| ==> s[i].timestamp + d <= now - SafetyMargin
    ensures exists i :: 0 <= i < |s| && s[i].timestamp + d == now - SafetyMargin
  {
    MaxTimeIsMax(s);
    now - MaxTime(s) - SafetyMargin
  }

  /** `df[df[timestamp_col] >= start]`: the rows at or after `start`, in
      their original order. */
  function Window(s: seq<Row>, start: Time): (w: seq<Row>)
    ensures |w| <= |s|
  {
    if s == [] then []
    else Window(s[..|s| - 1], start) + (if s[|s| - 1].timestamp >= start then [s[|s| - 1]] else [])
  }

  /** The positions of the rows `Window` keeps, in increasing order. */
  function KeptIndices(s: seq<Row>, start: Time): seq<nat> {
    if s == [] then []
    else KeptIndices(s[..|s| - 1], start) + (if s[|s| - 1].timestamp >= start then [|s| - 1] else [])
  }

  /** The frame `adjust_data_timespan` returns for a window of `delta`.
      An empty frame has no maximum (pandas gives NaT) and comes back
      empty. */
  function Aligned(s: seq<Row>, delta: int, now: Time): (r: seq<Row>)
    ensures |r| <= |s|
  {
    if s == [] then [] else Window(Shifted(s, ShiftAmount(s, now)), now - delta)
  }

  /** `adjust_data_timespan(df, new_period=period)` on rows `s`. */
  function AdjustSpec(s: seq<Row>, period: string, now: Time): (r: Result<seq<Row>>)
    ensures r.Err? <==> ParsePeriod(period).Err?
    ensures r.Err? ==> r.error == ParsePeriod(period).error
    ensures r.Err? ==> EndsWith(period, 'd') || EndsWith(period, 'h')
    ensures r.Ok? ==> |r.value| <= |s|
  {
    var delta :- ParsePeriod(period);
    Ok(Aligned(s, delta, now))
  }

  /** `idx` lists, in increasing order, exactly the positions of `s` whose
      rows satisfy the window test, and `w` is those rows. */
  ghost predicate Selects(idx: seq<nat>, w: seq<Row>, s: seq<Row>, start: Time) {
    && |idx| == |w|
    && (forall k :: 0 <= k < |idx| ==> idx[k] < |s| && w[k] == s[idx[k]])
    && (forall k, l :: 0 <= k < l < |idx| ==> idx[k] < idx[l])
    && (forall i :: 0 <= i < |s| ==> (i in idx <==> s[i].timestamp >= start))
  }

  /** The window keeps a row iff its timestamp is at or after `start`
      (the boundary is inclusive), drops the rest, and keeps the input
      order. */
  lemma {:induction false} WindowSelects(s: seq<Row>, start: Time)
    ensures Selects(KeptIndices(s, start), Window(s, start), s, start)
  {
    if s != [] {
      var p := s[..|s| - 1];
      WindowSelects(p, start);
      var idx, w := KeptIndices(s, start), Window(s, start);
      var pidx, pw := KeptIndices(p, start), Window(p, start);
      assert forall k :: 0 <= k < |pidx| ==> pidx[k] < |p| && pw[k] == p[pidx[k]];
      assert forall i :: 0 <= i < |p| ==> p[i] == s[i];
      if s[|s| - 1].timestamp >= start {
        assert idx == pidx + [|s| - 1] && w == pw + [s[|s| - 1]];
        forall i | 0 <= i < |s| ensures i in idx <==> s[i].timestamp >= start {
          if i < |s| - 1 {
            assert i in pidx <==> p[i].timestamp >= start;
          }
        }
      } else {
        assert idx == pidx && w == pw;
        forall i | 0 <= i < |s| ensures i in idx <==> s[i].timestamp >= start {
          if i < |s| - 1 {
            assert i in pidx <==> p[i].timestamp >= start;
          } else {
            assert forall k :: 0 <= k < |pidx| ==> pidx[k] < |p|;
          }
        }
      }
    }
  }

  /** Every row moves by the same amount: differences between timestamps,
      and so their order, are unchanged, and no other column changes. */
  lemma ShiftIsUniform(s: seq<Row>, d: int)
    ensures |Shifted(s, d)| == |s|
    ensures forall i, j :: 0 <= i < |s| && 0 <= j < |s| ==>
              Shifted(s, d)[i].timestamp - Shifted(s, d)[j].timestamp == s[i].timestamp - s[j].timestamp
    ensures forall i :: 0 <= i < |s| ==> Shifted(s, d)[i].cells == s[i].cells
  {
  }

  lemma MaxOfShifted(s: seq<Row>, d: int)
    requires |s| > 0
    ensures MaxTime(Shifted(s, d)) == MaxTime(s) + d
  {
    var t := Shifted(s, d);
    MaxTimeIsMax(s);
    MaxTimeIsMax(t);
    var i :| 0 <= i < |t| && t[i].timestamp == MaxTime(t);
    var j :| 0 <= j < |s| && s[j].timestamp == MaxTime(s);
    assert t[j].timestamp <= MaxTime(t);
    assert s[i].timestamp <= MaxTime(s);
  }

  /** After the shift the newest row sits exactly five minutes before
      `now`. */
  lemma NewestLandsBeforeNow(s: seq<Row>, now: Time)
    requires |s| > 0
    ensures MaxTime(Shifted(s, ShiftAmount(s, now))) == now - SafetyMargin
  {
    MaxOfShifted(s, ShiftAmount(s, now));
  }

  /** The aligned frame is the input rows at the kept positions, in input
      order, each moved by the common shift and otherwise unchanged; a row
      is kept iff its shifted timestamp is at or after `now - delta`. */
  lemma AlignedSelects(s: seq<Row>, delta: int, now: Time)
    requires |s| > 0
    ensures var d := ShiftAmount(s, now);
            var idx := KeptIndices(Shifted(s, d), now - delta);
            var w := Aligned(s, delta, now);
            && |idx| == |w|
            && (forall k :: 0 <= k < |idx| ==> idx[k] < |s| && w[k] == ShiftRow(s[idx[k]], d))
            && (forall k, l :: 0 <= k < l < |idx| ==> idx[k] < idx[l])
            && (forall i :: 0 <= i < |s| ==> (i in idx <==> s[i].timestamp + d >= now - delta))
  {
    var d := ShiftAmount(s, now);
    WindowSelects(Shifted(s, d), now - delta);
  }

  /** Every row the alignment keeps lies in `[now - delta, now - 5 min]`. */
  lemma AlignedWithinWindow(s: seq<Row>, delta: int, now: Time)
    ensures forall k :: 0 <= k < |Aligned(s, delta, now)| ==>
              now - delta <= Aligned(s, delta, now)[k].timestamp <= now - SafetyMargin
  {
    if s != [] {
      var d := ShiftAmount(s, now);
      var w := Aligned(s, delta, now);
      WindowSelects(Shifted(s, d), now - delta);
      MaxTimeIsMax(s);
      var idx := KeptIndices(Shifted(s, d), now - delta);
      forall k | 0 <= k < |w| ensures now - delta <= w[k].timestamp <= now - SafetyMargin {
        var i := idx[k];
        assert i in idx;
        assert w[k] == Shifted(s, d)[i];
        assert s[i].timestamp <= MaxTime(s);
      }
    }
  }

  lemma {:induction false} WindowKeeps(s: seq<Row>, start: Time, i: nat)
    requires i < |s| && s[i].timestamp >= start
    ensures s[i] in Window(s, start)
  {
    if i < |s| - 1 {
      WindowKeeps(s[..|s| - 1], start, i);
    }
  }

  /** With a window of at least five minutes the newest row is always
      kept, so a non-empty frame never aligns to an empty one. */
  lemma NewestIsKept(s: seq<Row>, delta: int, now: Time, i: nat)
    requires i < |s| && s[i].timestamp == MaxTime(s)
    requires delta >= SafetyMargin
    ensures ShiftRow(s[i], ShiftAmount(s, now)) in Aligned(s, delta, now)
    ensures |Aligned(s, delta, now)| > 0
  {
    var d := ShiftAmount(s, now);
    var t := Shifted(s, d);
    assert t[i] == ShiftRow(s[i], d);
    assert t[i].timestamp == now - SafetyMargin;
    WindowKeeps(t, now - delta, i);
    var w := Window(t, now - delta);
    assert Aligned(s, delta, now) == w;
    assert t[i] in w;
    assert |w| > 0;
  }

  lemma {:induction false} WindowOfEarlierRows(s: seq<Row>, start: Time)
    requires forall i :: 0 <= i < |s| ==> s[i].timestamp < start
    ensures Window(s, start) == []
  {
    if s != [] {
      WindowOfEarlierRows(s[..|s| - 1], start);
    }
  }

  /** A window shorter than the five-minute margin keeps nothing. */
  lemma ShortWindowIsEmpty(s: seq<Row>, delta: int, now: Time)
    requires delta < SafetyMargin
    ensures Aligned(s, delta, now) == []
  {
    if s != [] {
      var t := Shifted(s, ShiftAmount(s, now));
      MaxTimeIsMax(s);
      WindowOfEarlierRows(t, now - delta);
    }
  }

  /** Moving an aligned row back by the common shift gives a row of the
      input. */
  lemma AlignedRowFromInput(s: seq<Row>, delta: int, now: Time, x: Row)
    requires |s| > 0 && x in Aligned(s, delta, now)
    ensures ShiftRow(x, -ShiftAmount(s, now)) in s
  {
    var d := ShiftAmount(s, now);
    var w := Aligned(s, delta, now);
    AlignedSelects(s, delta, now);
    var idx := KeptIndices(Shifted(s, d), now - delta);
    var k :| 0 <= k < |w| && w[k] == x;
    assert ShiftRow(x, -d) == s[idx[k]];
  }

  /** Alignment changes only timestamps, so a rectangular frame stays
      rectangular with the same columns. */
  lemma AlignedFrameWellFormed(f: Frame, delta: int, now: Time)
    requires WellFormed(f)
    ensures WellFormed(Frame(f.columns, Aligned(f.rows, delta, now)))
  {
    if f.rows != [] {
      AlignedSelects(f.rows, delta, now);
    }
  }

  /** `df[timestamp_col].max()`, by a scan over the column. */
  method MaxTimestamp(a: array<Row>) returns (m: Time)
    requires a.Length > 0
    ensures m == MaxTime(a[..])
  {
    m := a[0].timestamp;
    var i := 1;
    assert a[..1] == [a[0]];
    while i < a.Length
      invariant 1 <= i <= a.Length
      invariant m == MaxTime(a[..i])
    {
      assert a[..i + 1][..i] == a[..i];
      if a[i].timestamp > m {
        m := a[i].timestamp;
      }
      i := i + 1;
    }
    assert a[..a.Length] == a[..];
  }

  /** `df[timestamp_col] = df[timestamp_col] + shift`: updates the rows
      the caller passed in, in place. */
  method ShiftTimestamps(a: array<Row>, d: int)
    modifies a
    ensures a[..] == Shifted(old(a[..]), d)
  {
    var i := 0;
    while i < a.Length
      invariant 0 <= i <= a.Length
      invariant forall k :: 0 <= k < i ==> a[k] == ShiftRow(old(a[k]), d)
      invariant forall k :: i <= k < a.Length ==> a[k] == old(a[k])
    {
      a[i] := ShiftRow(a[i], d);
      i := i + 1;
    }
  }

  /** `df[df[timestamp_col] >= start]`: a new sequence of the kept rows. */
  method FilterWindow(a: array<Row>, start: Time) returns (kept: seq<Row>)
    ensures kept == Window(a[..], start)
  {
    kept := [];
    var i := 0;
    while i < a.Length
      invariant 0 <= i <= a.Length
      invariant kept == Window(a[..i], start)
    {
      assert a[..i + 1][..i] == a[..i];
      if a[i].timestamp >= start {
        kept := kept + [a[i]];
      }
      i := i + 1;
    }
    assert a[..a.Length] == a[..];
  }

  /** Lines 30-35 of `adjust_data_timespan` on a non-empty frame: shift
      the caller's rows in place, then select the window. */
  method AlignInPlace(a: array<Row>, delta: int, now: Time) returns (kept: seq<Row>)
    requires a.Length > 0
    modifies a
    ensures kept == Aligned(old(a[..]), delta, now)
    ensures a[..] == Shifted(old(a[..]), ShiftAmount(old(a[..]), now))
  {
    var maxTime := MaxTimestamp(a);
    var shift := now - maxTime - SafetyMargin;
    ShiftTimestamps(a, shift);
    kept := FilterWindow(a, now - delta);
  }

  /** `adjust_data_timespan(df, new_period=period)`. A malformed period
      raises before the frame is touched; otherwise the caller's rows are
      shifted in place and the rows inside the window are returned. */
  method AdjustDataTimespan(a: array<Row>, period: string, now: Time) returns (r: Result<seq<Row>>)
    modifies a
    ensures r == AdjustSpec(old(a[..]), period, now)
    ensures a[..] == if r.Err? || a.Length == 0 then old(a[..])
                     else Shifted(old(a[..]), ShiftAmount(old(a[..]), now))
  {
    var parsed := ParsePeriod(period);
    if parsed.Err? {
      return Err(parsed.error);
    }
    if a.Length == 0 {
      assert a[..] == [];
      return Ok([]);
    }
    var kept := AlignInPlace(a, parsed.value, now);
    r := Ok(kept);
  }
}
