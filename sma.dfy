/** The moving-average crossover (services/strategy-engine/core.py): for a column
    of closes, a rolling mean over a short and over a long window, and a 0/1
    signal that is 1 where the short mean is above the long one. A rolling mean
    with a window of `w` is undefined (pandas' NaN) on the first `w - 1` rows,
    and everywhere when `w` is 0. */
module SmaCrossover {
  import opened Wrappers
  import opened Stats

  /** The default window lengths of `simple_moving_avg`. */
  const DefaultShort: nat := 5
  const DefaultLong: nat := 20

  /** One row of the returned table: the copied close, both rolling means
      (`None` for NaN) and the signal. */
  datatype Row = Row(close: real, shortMa: Option<real>, longMa: Option<real>, signal: int)

  /** `close.rolling(w).mean()` at row `i`: the mean of the `w` closes ending at
      row `i`, once that many rows exist. */
  function RollingMean(close: seq<real>, w: nat, i: nat): Option<real>
    requires i < |close|
  {
    if 1 <= w && w - 1 <= i then Some(Mean(close[i + 1 - w..i + 1])) else None
  }

  /** `(short_ma > long_ma).astype(int)`: a comparison with NaN is false. */
  function Crossed(shortMa: Option<real>, longMa: Option<real>): int {
    if shortMa.Some? && longMa.Some? && shortMa.value > longMa.value then 1 else 0
  }

  function RowAt(close: seq<real>, short: nat, long: nat, i: nat): Row
    requires i < |close|
  {
    var s, l := RollingMean(close, short, i), RollingMean(close, long, i);
    Row(close[i], s, l, Crossed(s, l))
  }

  /** `simple_moving_avg(df, short, long)` on a copy of the table: the same rows
      and closes, each rolling mean defined exactly from row `w - 1` on and equal
      there to the mean of the last `w` closes, and a signal that is 1 exactly
      where both means are defined and the short one is the larger. */
  function SimpleMovingAvg(close: seq<real>, short: nat := DefaultShort, long: nat := DefaultLong): (rows: seq<Row>)
    ensures |rows| == |close|
    ensures forall i :: 0 <= i < |rows| ==> rows[i].close == close[i]
    ensures forall i :: 0 <= i < |rows| ==>
      (rows[i].shortMa.Some? <==> 1 <= short && short - 1 <= i) &&
      (rows[i].longMa.Some? <==> 1 <= long && long - 1 <= i)
    ensures forall i :: 0 <= i < |rows| && rows[i].shortMa.Some? ==>
      rows[i].shortMa.value == Mean(close[i + 1 - short..i + 1])
    ensures forall i :: 0 <= i < |rows| && rows[i].longMa.Some? ==>
      rows[i].longMa.value == Mean(close[i + 1 - long..i + 1])
    ensures forall i :: 0 <= i < |rows| ==> rows[i].signal == 0 || rows[i].signal == 1
    ensures forall i :: 0 <= i < |rows| ==>
      (rows[i].signal == 1 <==>
        rows[i].shortMa.Some? && rows[i].longMa.Some? && rows[i].shortMa.value > rows[i].longMa.value)
  {
    seq(|close|, i requires 0 <= i < |close| => RowAt(close, short, long, i))
  }

  predicate StrictlyIncreasing(s: seq<real>) {
    forall i, j :: 0 <= i < j < |s| ==> s[i] < s[j]
  }

  /** Over strictly increasing closes the mean of the last `short` closes is above
      the mean of the last `long` closes, whenever `short < long`. */
  lemma ShortMeanAboveLongMean(close: seq<real>, short: nat, long: nat, i: nat)
    requires StrictlyIncreasing(close)
    requires 1 <= short < long && long - 1 <= i < |close|
    ensures Mean(close[i + 1 - short..i + 1]) > Mean(close[i + 1 - long..i + 1])
  {
    var older, recent := close[i + 1 - long..i + 1 - short], close[i + 1 - short..i + 1];
    var pivot := close[i + 1 - short];
    assert close[i + 1 - long..i + 1] == older + recent;
    assert forall k :: 0 <= k < |older| ==> older[k] == close[i + 1 - long + k];
    assert forall k :: 0 <= k < |recent| ==> recent[k] == close[i + 1 - short + k];
    MeanBelow(older, pivot);
    MeanAtLeast(recent, pivot);
    MeanOfConcatBelow(older, recent);
  }

  /** For strictly increasing closes and `1 <= short < long`, every row where the
      long mean is defined has signal 1, and every earlier row signal 0. */
  lemma IncreasingClosesSignal(close: seq<real>, short: nat, long: nat)
    requires StrictlyIncreasing(close)
    requires 1 <= short < long
    ensures forall i :: long - 1 <= i < |close| ==> SimpleMovingAvg(close, short, long)[i].signal == 1
    ensures forall i :: 0 <= i < |close| && i < long - 1 ==> SimpleMovingAvg(close, short, long)[i].signal == 0
  {
    var rows := SimpleMovingAvg(close, short, long);
    forall i | long - 1 <= i < |close|
      ensures rows[i].signal == 1
    {
      ShortMeanAboveLongMean(close, short, long, i);
    }
  }

  /** The closes 100, 101, …, 109 with windows 3 and 5: every signal is 0 or 1, the
      last one is 1, and the first four are 0. */
  lemma TenRisingCloses()
    ensures var rows := SimpleMovingAvg([100.0, 101.0, 102.0, 103.0, 104.0, 105.0, 106.0, 107.0, 108.0, 109.0], 3, 5);
      && |rows| == 10
      && (forall i :: 0 <= i < 10 ==> rows[i].signal in {0, 1})
      && rows[9].signal == 1
      && (forall i :: 0 <= i < 4 ==> rows[i].signal == 0)
      && (forall i :: 4 <= i < 10 ==> rows[i].signal == 1)
  {
    var close := [100.0, 101.0, 102.0, 103.0, 104.0, 105.0, 106.0, 107.0, 108.0, 109.0];
    assert forall k :: 0 <= k < 10 ==> close[k] == 100.0 + k as real;
    IncreasingClosesSignal(close, 3, 5);
  }
}
