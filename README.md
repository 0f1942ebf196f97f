# Fraud-demo preprocessing and serving schema, modelled in Dafny

This project models two pieces of an MLOps demo repository.

The first is the data preparation that runs before the fraud-detection
feature sets are ingested (`A5/run_part1.py`):

- `adjust_data_timespan` parses a period such as `"2d"` or `"12h"`. It then
  moves every timestamp of a frame by one common offset, so that the newest
  row lands five minutes before "now". Finally it keeps the rows inside the
  trailing window.
- The transactions frame is prepared in four steps: sort by `source`, keep
  the first 10000 rows, align to a two-day window, and sort by timestamp.
- `create_labels` builds the label frame, holding `int(fraud)` and the
  timestamp of each row.

The second is the request schema of the house-price serving endpoint
(`A2/app/schemas.py`). There are thirteen numeric features, each with its
own bound. The response records are also modelled.

The modules:

| module | file | what it holds |
|---|---|---|
| `Errors` | errors.dfy | the Python exceptions the core can raise, and `Result` |
| `PyInt` | py_int.dfy | Python's `int(str)` and `str(int)` on decimal text |
| `Duration` | duration.dfy | microsecond time units; parsing of `new_period` |
| `Sorting` | sorting.dfy | sorting by a comparison: ordered and a permutation |
| `Cells` | cells.dfy | cell values, `int(value)`, and the order `sort_values` uses |
| `Frames` | frames.dfy | rows, frames, `sort_values`, `df[:n]` |
| `Timespan` | timespan.dfy | `adjust_data_timespan`: specification functions and in-place methods |
| `Labels` | labels.dfy | `create_labels` |
| `Preprocess` | preprocess.dfy | the transactions preparation chain |
| `Schemas` | schemas.dfy | `InputData`, `Metadata`, `PredictResponse` and request validation |

Times are whole microseconds (`int`), the resolution of `datetime` (pandas frames hold nanoseconds; see "## Left out"). The wall
clock `datetime.now()` is a parameter `now`.

`adjust_data_timespan` assigns a new timestamp column to the frame it is
given, so the caller's frame changes. `Timespan.AdjustDataTimespan` models
this: it updates an `array<Row>` in place with the shifted rows, and returns
the filtered rows as a new sequence. It is proved against the specification
function `Timespan.AdjustSpec`, which parses the period and then applies
`Timespan.Aligned`; the lemmas about the shift and the window are stated on
`Timespan.Aligned`.

## Model

| member | source | states |
|---|---|---|
| `PyInt.ParseInt` | A5/run_part1.py:25-27 | `int(text)` succeeds iff the text, stripped of the whitespace `int` recognises (ASCII space, tab to carriage return, and non-ASCII Unicode spaces), is an optional sign followed by digits, with single underscores allowed between digits; every failure is a ValueError |
| `PyInt.ParseFormatRoundTrip` | A5/run_part1.py:25-27 | `int(str(n)) == n` for every integer `n` |
| `PyInt.ParseIgnoresSurroundingSpace` | A5/run_part1.py:25-27 | whitespace around the count changes neither whether `int` succeeds nor the value |
| `PyInt.SeparatorIsNotSpace` | A5/run_part1.py:25-27 | an ASCII separator such as U+001C before the digits makes `int` fail; it is not stripped |
| `PyInt.FormatInt` | A5/run_part1.py:25-27 | `str(n)`, the partner of `int` in `ParseFormatRoundTrip`: a leading minus exactly for negative `n`, then decimal digits |
| `PyInt.FormatNatValue` | A5/run_part1.py:25-27 | the decimal digits of `n` denote `n` |
| `Duration.Days` | A5/run_part1.py:25 | `timedelta(days=n)` succeeds iff `abs(n) <= 999999999`, otherwise OverflowError |
| `Duration.Hours` | A5/run_part1.py:27 | `timedelta(hours=n)` succeeds iff the day count `n // 24` is within range, otherwise OverflowError |
| `Duration.ParsePeriod` | A5/run_part1.py:24-29 | an error is only possible when the period ends in `d` or `h` |
| `Duration.DaySuffix` | A5/run_part1.py:24-25 | `"<n>d"` is `n` days for every in-range `n`, negative counts included |
| `Duration.HourSuffix` | A5/run_part1.py:26-27 | `"<n>h"` is `n` hours |
| `Duration.DaySuffixOverflow` | A5/run_part1.py:25 | a day count beyond the timedelta range is an OverflowError |
| `Duration.HourSuffixOverflow` | A5/run_part1.py:27 | an hour count whose day count `n // 24` is beyond the timedelta range is an OverflowError |
| `Duration.OtherSuffixIsDefault` | A5/run_part1.py:28-29 | any period not ending in `d` or `h`, the empty string included, is two days |
| `Duration.MalformedCountIsError` | A5/run_part1.py:24-27 | a `d`/`h` suffix after text that is not an integer is a ValueError, never the two-day default |
| `Duration.TwoDays` | A5/run_part1.py:50 | `"2d"` is two days |
| `Duration.TwelveHours` | A5/run_part1.py:26-27 | `"12h"` is twelve hours |
| `Duration.NonNumericCount` | A5/run_part1.py:24-25 | `"xd"` is an error |
| `Duration.EmptyCount` | A5/run_part1.py:24-25 | `"d"` is an error, because `int("")` raises |
| `Duration.FractionalCount` | A5/run_part1.py:26-27 | `"2.5h"` is an error |
| `Sorting.Sort` | A5/run_part1.py:49-51 | sorting returns a permutation of its input |
| `Sorting.SortSorted` | A5/run_part1.py:49-51 | for any total preorder, the sorted sequence is ordered |
| `Sorting.InsertSorted` | A5/run_part1.py:49-51 | inserting into an ordered sequence keeps it ordered |
| `Cells.Truncate` | A5/run_part1.py:162 | `int(x)` on a float rounds toward zero: the result is within one of `x`, on the side of zero |
| `Cells.CellToInt` | A5/run_part1.py:162 | integers cast to themselves; booleans to 1/0; a float truncates toward zero (`Truncate`); a string is parsed by `int` (`ParseInt`); a missing value is a ValueError, and every failure is a ValueError |
| `Cells.StrLeTotal` | A5/run_part1.py:49 | any two strings compare one way or the other |
| `Cells.StrLeTransitive` | A5/run_part1.py:49 | string order is transitive |
| `Cells.CellLeIsTotalPreorder` | A5/run_part1.py:49 | the cell order (numbers, then strings, then missing values last) is a valid sort order |
| `Frames.ByColumnIsTotalPreorder` | A5/run_part1.py:49 | ordering rows by one column is a valid sort order |
| `Frames.SortValues` | A5/run_part1.py:49-51 | the timestamp column always sorts, by time; any other column gives KeyError when unknown and TypeError when its values mix strings and numbers; otherwise the same rows and columns, ordered by that column |
| `Frames.Column` | A5/run_part1.py:49 | `df[name]` has one value per row |
| `Frames.SortByTimestamp` | A5/run_part1.py:51 | the same rows and columns, in non-decreasing timestamp order |
| `Frames.Head` | A5/run_part1.py:49 | `df[:n]` is a prefix of length `min(n, rows)` with the same columns |
| `Timespan.MaxTime` | A5/run_part1.py:30 | `df[timestamp_col].max()`; `MaxTimeIsMax` proves it is attained by a row and bounds every row |
| `Timespan.ShiftAmount` | A5/run_part1.py:32 | the offset moves every row to at most five minutes before `now` and some row to exactly that instant; `NewestLandsBeforeNow` states the effect on the shifted maximum |
| `Timespan.Shifted` | A5/run_part1.py:33 | every row moves by exactly `d`, keeps its other columns, and the row count is unchanged |
| `Timespan.Window` | A5/run_part1.py:35 | the window never has more rows than its input; `WindowSelects` characterises it completely |
| `Timespan.Aligned` | A5/run_part1.py:30-35 | the aligned rows are never more than the input rows; `AlignedSelects`, `AlignedWithinWindow` and `NewestIsKept` state the rest |
| `Timespan.AdjustSpec` | A5/run_part1.py:23-36 | an error exactly when the period does not parse (the datetime-range errors of lines 32-34 are under "## Left out"), which needs a `d` or `h` suffix, and then the error is the parse's own (ValueError from `int` or OverflowError from `timedelta`); otherwise at most as many rows as the input |
| `Timespan.MaxTimeIsMax` | A5/run_part1.py:30 | the maximum is the timestamp of some row, and no row is later |
| `Timespan.MaxTimestamp` | A5/run_part1.py:30 | the scan over the timestamp column returns its maximum |
| `Timespan.ShiftTimestamps` | A5/run_part1.py:33 | every row of the array is moved by the shift in place; nothing else changes |
| `Timespan.FilterWindow` | A5/run_part1.py:35 | the filter loop returns exactly the window of the array's rows |
| `Timespan.AlignInPlace` | A5/run_part1.py:30-35 | on a non-empty frame, the array holds the shifted rows and the result is the aligned window |
| `Timespan.AdjustDataTimespan` | A5/run_part1.py:23-36 | the result is the specification's, error included; a malformed period leaves the array untouched; otherwise the array holds the shifted rows |
| `Timespan.WindowSelects` | A5/run_part1.py:35 | a row is kept iff its timestamp is at or after the start (inclusive); kept rows stay in input order |
| `Timespan.ShiftIsUniform` | A5/run_part1.py:33 | the shift preserves every difference between timestamps and every other column |
| `Timespan.MaxOfShifted` | A5/run_part1.py:30-33 | shifting all rows by `d` shifts the maximum by `d` |
| `Timespan.NewestLandsBeforeNow` | A5/run_part1.py:30-33 | after alignment the newest row is exactly five minutes before `now` |
| `Timespan.AlignedSelects` | A5/run_part1.py:30-35 | the aligned frame is the input rows at the kept positions, in order, each moved by the common shift; a row is kept iff its shifted timestamp is at or after `now - delta` |
| `Timespan.AlignedWithinWindow` | A5/run_part1.py:30-35 | every kept row lies in `[now - delta, now - 5 min]` |
| `Timespan.WindowKeeps` | A5/run_part1.py:35 | a row at or after the start is in the window |
| `Timespan.NewestIsKept` | A5/run_part1.py:30-35 | with a window of at least five minutes the newest row is kept, so a non-empty frame (of non-missing timestamps) never aligns to an empty one |
| `Timespan.WindowOfEarlierRows` | A5/run_part1.py:35 | rows all before the start give an empty window |
| `Timespan.ShortWindowIsEmpty` | A5/run_part1.py:30-35 | a window shorter than five minutes keeps nothing |
| `Timespan.AlignedRowFromInput` | A5/run_part1.py:30-35 | moving an aligned row back by the shift gives an input row |
| `Timespan.AlignedFrameWellFormed` | A5/run_part1.py:33-35 | alignment keeps the frame rectangular, with the same columns |
| `Labels.CastLabels` | A5/run_part1.py:162 | the cast succeeds iff every fraud value casts, and a failure is a ValueError; on success there is one label per row, with that row's timestamp and `int(fraud)` |
| `Labels.CreateLabels` | A5/run_part1.py:158-163 | KeyError without a `fraud` column; otherwise success iff every value casts, a failed cast being a ValueError, with one label row per input row, in input order |
| `Labels.LabelsKeepTimestampOrder` | A5/run_part1.py:158-163 | labels of a frame sorted by timestamp are sorted by timestamp |
| `Labels.FlagsAlwaysCast` | A5/run_part1.py:162 | integer and boolean fraud flags always cast, `True`/`False` to 1/0 |
| `Labels.MissingFlagIsError` | A5/run_part1.py:162 | one missing fraud value makes the whole cast fail |
| `Preprocess.PrepareTransactions` | A5/run_part1.py:49-51 | an error iff `source` is missing (KeyError) or not orderable (TypeError); otherwise at most 10000 rows, same columns, rectangular, in timestamp order |
| `Preprocess.PreparedWithinWindow` | A5/run_part1.py:49-51 | every prepared row lies in `[now - 2 days, now - 5 min]` |
| `Preprocess.PreparedIsAlignedSelection` | A5/run_part1.py:49-51 | the prepared rows are, as a multiset, the aligned first 10000 rows by source |
| `Preprocess.SelectedRowFromInput` | A5/run_part1.py:49-50 | an aligned selected row moved back by the offset is a row of the input frame |
| `Preprocess.PreparedRowsComeFromInput` | A5/run_part1.py:49-51 | every prepared row is an input row moved by one common offset, with its other columns unchanged |
| `Preprocess.LabelsOfPrepared` | A5/run_part1.py:49-51 | the labels of the prepared frame number at most 10000 and are in timestamp order |
| `Schemas.Valid` | A2/app/schemas.py:3-16 | the validator: the thirteen field bounds conjoined; `ValidIffEveryFieldOk` proves it equal to the per-field bound table |
| `Schemas.ViolationsIn` | A2/app/schemas.py:3-16 | a field is reported iff it violates its bound |
| `Schemas.With` | A2/app/schemas.py:3-16 | replacing one field changes that field and no other |
| `Schemas.ValidIffEveryFieldOk` | A2/app/schemas.py:3-16 | a request is valid iff each field meets its own bound |
| `Schemas.ValidIffNoViolations` | A2/app/schemas.py:3-16 | a request is rejected iff its error list is non-empty, and the list names exactly the violated fields |
| `Schemas.NoCrossFieldConstraints` | A2/app/schemas.py:3-16 | in a valid request, replacing one field keeps it valid iff the new value meets that field's bound |
| `Schemas.BoundaryValues` | A2/app/schemas.py:4-16 | zero is accepted by the `ge=0` fields and rejected by the `gt=0` ones; `chas` takes exactly 0 and 1; `rad` takes every integer from 1 |
| `Schemas.HappyPathAccepted` | A2/test/test_api.py:8-26 | the happy-path request is valid, with no violations |
| `Schemas.OnlyBrokenFieldReported` | A2/app/schemas.py:3-16 | breaking one bound of a valid request makes it invalid, and only that field is reported |
| `Schemas.NegativeAgeRejected` | A2/test/test_api.py:33-51 | the request with `age = -5.0` is rejected, and `age` is the only field reported |

## Left out

- Feature-set definitions, graph steps, aggregations, ingestion, targets, and reading back features (A5/run_part1.py:53-106, 126-150, and from line 165 on): these are library calls into mlrun and are not part of this model.
- Project creation, the CSV downloads, and every `print` (A5/run_part1.py:9-20, 38-46, 107-122): I/O.
- The events frame (A5/run_part1.py:124) goes through the same `adjust_data_timespan`. It needs nothing beyond `Timespan`, so it is not modelled separately.
- `datetime.now()`: a parameter. Its value is not modelled.
- The prediction endpoints, the model registry, mlflow, Prometheus metrics and tracing (A1, A2/app/main.py, A2/app/registry.py, A3): services and foreign calls. One point is noted but not modelled. `registry.py` falls back to `latest` only when the version is `None`. `main.py` writes `model_version or 'latest'`, which also turns an empty version string into `latest`.
- Request parsing by pydantic: type coercion (for example `"5"` to 5), NaN and infinite floats, and extra fields are not modelled. A request is a value of `InputData` with real and integer fields.
- `Metadata` and `PredictResponse` are records with no constraints. No operation acts on them.
- `Frames.SortValues`: pandas' default sort is not stable. The model uses one particular order (insertion sort) but proves only what every valid sort guarantees: ordered, and a permutation. The relative order of equal keys, and so which rows `[:10000]` keeps among ties at the cut, is not pinned down.
- `Cells.CellToInt`: a missing value is one kind of cell. `astype(int)` raises a ValueError for a NaN, which is what the model gives, but `int(None)` in an object column raises TypeError.
- `Cells.CellLe`: compares integers, floats and booleans as exact rationals. A NaN inside a float column is modelled as a missing value and sorted last.
- Infinite floats in `Cells.Cell`: a `Real` cell cannot hold ±inf. In the ascending sort at line 49, +inf sorts after every finite value, just before NaN, and -inf sorts first; `astype(int)` raises ValueError on either. Neither case is modelled.
- Sub-microsecond timestamps in `Frames.Row`: pandas holds the timestamp column as `datetime64[ns]` (from `parse_dates` at line 45 and the cast at line 161), while the model's `Time` is whole microseconds, so a nanosecond part cannot be represented. No proved property depends on the unit.
- `PyInt.ParseInt`: accepts only ASCII digits. Python also accepts other Unicode decimal digits.
- `PyInt.ParseInt`: has no length limit. CPython 3.11 (and 3.10.7+, 3.9.14+) raises ValueError when `int` is given more than 4300 digits; the model parses such a count.
- `PyInt.ParseFormatRoundTrip`: is proved for every integer. CPython's `str(n)` raises ValueError for `abs(n) >= 10**4300` under the same digit limit, so in Python the round trip holds only below that bound.
- `Duration.DaySuffixOverflow` and `Duration.HourSuffixOverflow`: state OverflowError for every out-of-range day or hour count. For a count written with more than 4300 digits CPython's `int` raises ValueError first; the model gives OverflowError there.
- Time range: a time is an unbounded integer of microseconds. The `datetime` range (years 1 to 9999) and pandas' 64-bit nanosecond `Timestamp`/`Timedelta` (about ±292 years) are not modelled; the cases where this changes a result are listed on the next line.
- `Timespan.AdjustSpec` and `Timespan.AdjustDataTimespan`: return Ok for every period that parses. Python raises in three cases the model does not produce: (1) `now - delta` at line 34 raises OverflowError when the window starts before year 1, for a large positive period such as `"999999999d"`; (2) the same subtraction raises OverflowError when the window starts after year 9999, for a large negative period such as `"-3000000d"` (the model returns an empty result there); (3) `now - max_time` at line 32 raises an out-of-bounds error when the newest row is more than about 292 years before `now`, beyond pandas' 64-bit-nanosecond `Timedelta`, and the shift at line 33 can overflow the same way. In cases (1) and (2) line 33 has already shifted the caller's frame when the error is raised.
- Missing timestamps (NaT) in `Frames.Row`: a timestamp is never missing in the model. Frames read with `parse_dates` turn an empty field into NaT; pandas' `max()` at line 30 skips NaT, `NaT + shift` stays NaT, and `NaT >= start_time` at line 35 is false, so such rows are dropped and a frame whose timestamps are all NaT aligns to an empty frame. The model has no NaT rows.
- `Timespan.Aligned`: an empty frame gives an empty result. pandas computes a NaT maximum and filters everything out, which gives the same rows but not the column's dtype.
- The timestamp column name is fixed to `timestamp`, the only value the code passes.
- `Labels.CreateLabels`: the `astype("datetime64[ns]")` conversion of the timestamp column is the identity here, since the source column is already `datetime64[ns]` and times here are already integers. `astype(int)` is modelled as Python's `int()` on each value, with 64-bit overflow not modelled.
