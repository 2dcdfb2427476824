/** Properties of %K, %D and MA over a series of fetched candles, where every price is
    defined and, as the exchange is trusted to guarantee, low <= close <= high. */
module Oscillator {
  import opened Optional
  import opened Rolling
  import opened Ohlc
  import opened Indicators

  function CandleK(cs: seq<Candle>): (k: Column)
    ensures |k| == |cs|
  {
    StochasticK(ColumnOf(cs, Low), ColumnOf(cs, High), ColumnOf(cs, Close))
  }

  function CandleD(cs: seq<Candle>): (d: Column)
    ensures |d| == |cs|
  {
    StochasticD(CandleK(cs))
  }

  /** Every low and every high in the 14 candles ending at `i` equals the low of candle `i`. */
  predicate FlatWindow(cs: seq<Candle>, i: nat)
    requires i < |cs|
  {
    forall j :: i + 1 - KWindow <= j <= i && 0 <= j ==> cs[j].low == cs[i].low && cs[j].high == cs[i].low
  }

  /** The stochastic formula maps a close inside a non-empty range into [0, 100]. */
  lemma RatioBounds(c: real, lo: real, hi: real)
    requires lo <= c <= hi && lo < hi
    ensures 0.0 <= (c - lo) / (hi - lo) * 100.0 <= 100.0
  {
    var a, b := c - lo, hi - lo;
    assert a / b <= 1.0 by {
      assert a / b * b == a;
    }
  }

  /** On well-formed candles the window's lowest low is at most the close and the
      highest high at least the close. */
  lemma CloseWithinWindow(cs: seq<Candle>, i: nat)
    requires WellFormed(cs) && i < |cs| && KWindow <= i + 1
    ensures RollingMin(ColumnOf(cs, Low), KWindow)[i].Some?
    ensures RollingMax(ColumnOf(cs, High), KWindow)[i].Some?
    ensures RollingMin(ColumnOf(cs, Low), KWindow)[i].value <= cs[i].close
            <= RollingMax(ColumnOf(cs, High), KWindow)[i].value
  {
    RollingMinAt(ColumnOf(cs, Low), KWindow, i);
    RollingMaxAt(ColumnOf(cs, High), KWindow, i);
  }

  /** A %K value computed from a close that lies between the rolling low and high lies
      in [0, 100] whenever it is defined. */
  lemma KValueInRange(close: Option<real>, lowMin: Option<real>, highMax: Option<real>)
    requires close.Some? && lowMin.Some? && highMax.Some?
    requires lowMin.value <= close.value <= highMax.value
    ensures KValue(close, lowMin, highMax).Some? ==>
      0.0 <= KValue(close, lowMin, highMax).value <= 100.0
  {
    if lowMin.value != highMax.value {
      RatioBounds(close.value, lowMin.value, highMax.value);
    }
  }

  /** %K of well-formed candles, when defined, lies in [0, 100]. */
  lemma CandleKInRange(cs: seq<Candle>, i: nat)
    requires WellFormed(cs) && i < |cs|
    ensures CandleK(cs)[i].Some? ==> 0.0 <= CandleK(cs)[i].value <= 100.0
  {
    var low, high, close := ColumnOf(cs, Low), ColumnOf(cs, High), ColumnOf(cs, Close);
    var lm, hm := RollingMin(low, KWindow)[i], RollingMax(high, KWindow)[i];
    assert CandleK(cs)[i] == KValue(close[i], lm, hm);
    if KWindow <= i + 1 {
      CloseWithinWindow(cs, i);
      KValueInRange(close[i], lm, hm);
    }
  }

  /** A flat window (highest high equal to lowest low) forces close == lowest low, so the
      formula is 0/0 and %K is undefined, never a finite value. */
  lemma CandleKFlat(cs: seq<Candle>, i: nat)
    requires WellFormed(cs) && i < |cs| && KWindow <= i + 1
    requires RollingMax(ColumnOf(cs, High), KWindow)[i] == RollingMin(ColumnOf(cs, Low), KWindow)[i]
    ensures Some(cs[i].close) == RollingMin(ColumnOf(cs, Low), KWindow)[i]
    ensures CandleK(cs)[i] == None
  {
    var close := ColumnOf(cs, Close);
    var lm, hm := RollingMin(ColumnOf(cs, Low), KWindow)[i], RollingMax(ColumnOf(cs, High), KWindow)[i];
    CloseWithinWindow(cs, i);
    assert CandleK(cs)[i] == KValue(close[i], lm, hm);
  }

  /** On well-formed candles %K is defined at `i` exactly when 14 candles end at `i` and
      they are not all flat at one price. */
  lemma CandleKDefined(cs: seq<Candle>, i: nat)
    requires WellFormed(cs) && i < |cs|
    ensures CandleK(cs)[i].Some? <==> KWindow <= i + 1 && !FlatWindow(cs, i)
  {
    var low, high, close := ColumnOf(cs, Low), ColumnOf(cs, High), ColumnOf(cs, Close);
    StochasticKAt(low, high, close, i);
    if KWindow <= i + 1 {
      RollingMinAt(low, KWindow, i);
      RollingMaxAt(high, KWindow, i);
      var lm, hm := RollingMin(low, KWindow)[i].value, RollingMax(high, KWindow)[i].value;
      if FlatWindow(cs, i) {
        var a :| i + 1 - KWindow <= a <= i && low[a] == Some(lm);
        var b :| i + 1 - KWindow <= b <= i && high[b] == Some(hm);
        assert lm == cs[i].low == hm;
      } else if hm == lm {
        forall j | i + 1 - KWindow <= j <= i && 0 <= j
          ensures cs[j].low == cs[i].low && cs[j].high == cs[i].low
        {
          assert low[j] == Some(cs[j].low) && high[j] == Some(cs[j].high);
          assert low[i] == Some(cs[i].low) && high[i] == Some(cs[i].high);
        }
        assert false;
      }
    }
  }

  /** If every candle has a strictly positive high - low spread, %K is defined from row
      13 on and %D from row 15 on. */
  lemma CandleKDefinedOnSpread(cs: seq<Candle>)
    requires WellFormed(cs)
    requires forall j :: 0 <= j < |cs| ==> cs[j].low < cs[j].high
    ensures forall i :: KWindow - 1 <= i < |cs| ==> CandleK(cs)[i].Some?
    ensures forall i :: KWindow + DWindow - 2 <= i < |cs| ==> CandleD(cs)[i].Some?
  {
    forall i | KWindow - 1 <= i < |cs| ensures CandleK(cs)[i].Some? {
      CandleKDefined(cs, i);
      assert !FlatWindow(cs, i) by {
        assert cs[i].low < cs[i].high;
      }
    }
    forall i | KWindow + DWindow - 2 <= i < |cs| ensures CandleD(cs)[i].Some? {
      StochasticDAt(CandleK(cs), i);
    }
  }

  /** %D of well-formed candles, when defined, lies in [0, 100]. */
  lemma CandleDInRange(cs: seq<Candle>, i: nat)
    requires WellFormed(cs) && i < |cs|
    ensures CandleD(cs)[i].Some? ==> 0.0 <= CandleD(cs)[i].value <= 100.0
  {
    var k := CandleK(cs);
    StochasticDAt(k, i);
    if CandleD(cs)[i].Some? {
      CandleKInRange(cs, i - 2);
      CandleKInRange(cs, i - 1);
      CandleKInRange(cs, i);
    }
  }

  /** Fourteen candles with closes 10, 11, ..., 23, each with high = close + 1 and
      low = close - 1 (open, vwap, volume, count and timestamps are irrelevant): the
      lowest low of the window is 9 and the highest high 24, so %K on the last candle is
      (23 - 9) / (24 - 9) * 100 = 280/3, and %D is not yet defined. */
  lemma RisingScenario(cs: seq<Candle>)
    requires |cs| == 14
    requires forall i :: 0 <= i < 14 ==>
      cs[i].close == (10 + i) as real && cs[i].high == cs[i].close + 1.0 &&
      cs[i].low == cs[i].close - 1.0
    ensures CandleK(cs)[13] == Some(280.0 / 3.0)
    ensures CandleD(cs)[13] == None
  {
    var low, high, close := ColumnOf(cs, Low), ColumnOf(cs, High), ColumnOf(cs, Close);
    RollingMinAt(low, KWindow, 13);
    RollingMaxAt(high, KWindow, 13);
    var lm := RollingMin(low, KWindow)[13].value;
    var hm := RollingMax(high, KWindow)[13].value;
    var a :| 0 <= a <= 13 && low[a] == Some(lm);
    var b :| 0 <= b <= 13 && high[b] == Some(hm);
    assert lm == 9.0 by {
      assert low[a] == Some(cs[a].low) && low[0] == Some(cs[0].low);
    }
    assert hm == 24.0 by {
      assert high[b] == Some(cs[b].high) && high[13] == Some(cs[13].high);
    }
    assert close[13] == Some(23.0) by {
      assert close[13] == Some(cs[13].close);
    }
    StochasticKAt(low, high, close, 13);
    var k := CandleK(cs)[13];
    assert k.Some?;
    assert k.value == (23.0 - 9.0) / (24.0 - 9.0) * 100.0;
    StochasticDEarly(low, high, close, 13);
  }
}
