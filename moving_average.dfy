/** Properties of the `MA` column (main.py:53) over fetched candles. */
module MovingAverage {
  import opened Optional
  import opened Rolling
  import opened Ohlc
  import opened Indicators

  /** The window the dashboard passes to `calculate_moving_average` (main.py:90). */
  const DashboardWindow: nat := 10

  function CandleMA(cs: seq<Candle>, window: nat): (ma: Column)
    requires window > 0
    ensures |ma| == |cs|
  {
    RollingMean(ColumnOf(cs, Close), window)
  }

  /** On fetched candles (no NaN) MA is defined exactly from row `window - 1` on; it is
      then the sum of the window's closes over `window`, and lies between the rolling
      minimum and maximum of the closes and between two closes of its window. */
  lemma CandleMAAt(cs: seq<Candle>, window: nat, i: nat)
    requires window > 0 && i < |cs|
    ensures CandleMA(cs, window)[i].Some? <==> window <= i + 1
    ensures CandleMA(cs, window)[i].Some? ==>
      (exists lo :: i + 1 - window <= lo <= i && cs[lo].close <= CandleMA(cs, window)[i].value) &&
      (exists hi :: i + 1 - window <= hi <= i && CandleMA(cs, window)[i].value <= cs[hi].close) &&
      RollingMin(ColumnOf(cs, Close), window)[i].value <= CandleMA(cs, window)[i].value
        <= RollingMax(ColumnOf(cs, Close), window)[i].value &&
      CandleMA(cs, window)[i].value == Sum(WindowValues(ColumnOf(cs, Close), window, i)) / (window as real)
  {
    var close := ColumnOf(cs, Close);
    RollingMeanAt(close, window, i);
    if window <= i + 1 {
      assert Complete(close, window, i);
      RollingMinAt(close, window, i);
      RollingMaxAt(close, window, i);
      var v := CandleMA(cs, window)[i].value;
      var lo :| i + 1 - window <= lo <= i && close[lo].value <= v;
      var hi :| i + 1 - window <= hi <= i && v <= close[hi].value;
      assert close[lo] == Some(cs[lo].close) && close[hi] == Some(cs[hi].close);
    }
  }

  /** A series shorter than the window gives an MA column with no value at all. */
  lemma CandleMAShort(cs: seq<Candle>, window: nat)
    requires 0 < window && |cs| < window
    ensures forall i :: 0 <= i < |cs| ==> CandleMA(cs, window)[i] == None
  {
    ShortSeriesUndefined(ColumnOf(cs, Close), window);
  }

  /** Closes 1, 2, 3, 4, 5 with a window of 3 give MA = [_, _, 2, 3, 4]. */
  lemma SmallExample()
    ensures RollingMean([Some(1.0), Some(2.0), Some(3.0), Some(4.0), Some(5.0)], 3) ==
      [None, None, Some(2.0), Some(3.0), Some(4.0)]
  {
    var s: Column := [Some(1.0), Some(2.0), Some(3.0), Some(4.0), Some(5.0)];
    var ma := RollingMean(s, 3);
    forall i | 2 <= i < 5 ensures ma[i] == Some(i as real) {
      SmallExampleAt(s, i);
    }
    assert ma[0] == None && ma[1] == None;
  }

  lemma SmallExampleAt(s: Column, i: nat)
    requires s == [Some(1.0), Some(2.0), Some(3.0), Some(4.0), Some(5.0)] && 2 <= i < 5
    ensures RollingMean(s, 3)[i] == Some(i as real)
  {
    assert Complete(s, 3, i);
    var vs := WindowValues(s, 3, i);
    assert vs == [(i - 1) as real, i as real, (i + 1) as real];
    SumOfThree(vs);
  }
}
