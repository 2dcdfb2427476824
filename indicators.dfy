/** The two indicator functions of main.py as pure functions on tables:
    `calculate_stochastic_oscillator` (main.py:30-47) and `calculate_moving_average`
    (main.py:52-54). The in-place versions in module Frame are proved equal to these. */
module Indicators {
  import opened Optional
  import opened Rolling
  import opened Ohlc

  /** Rolling window of the stochastic's lowest low and highest high. */
  const KWindow: nat := 14
  /** Rolling window of %D over %K. */
  const DWindow: nat := 3

  /** The columns `calculate_stochastic_oscillator` leaves behind. */
  const StochasticCols: set<ColumnName> :=
    {PercentKCol, PercentDCol, OverboughtCol, ExpectedMaxCol, ExpectedMinCol, OversoldCol}

  /** pandas' element-wise `(close - low_min) / (high_max - low_min) * 100`: NaN in any
      operand gives NaN, and a zero divisor gives no finite value. */
  function KValue(close: Option<real>, lowMin: Option<real>, highMax: Option<real>): (r: Option<real>)
    ensures r.Some? <==> close.Some? && lowMin.Some? && highMax.Some? && highMax.value != lowMin.value
    ensures r.Some? ==> r.value * (highMax.value - lowMin.value) == (close.value - lowMin.value) * 100.0
  {
    if close.Some? && lowMin.Some? && highMax.Some? && highMax.value - lowMin.value != 0.0
    then Some((close.value - lowMin.value) / (highMax.value - lowMin.value) * 100.0)
    else None
  }

  function PercentK(close: Column, lowMin: Column, highMax: Column): (k: Column)
    requires |lowMin| == |close| && |highMax| == |close|
    ensures |k| == |close|
  {
    seq(|close|, i requires 0 <= i < |close| => KValue(close[i], lowMin[i], highMax[i]))
  }

  /** %K from the low, high and close columns (main.py:32-35). */
  function StochasticK(low: Column, high: Column, close: Column): (k: Column)
    requires |low| == |close| && |high| == |close|
    ensures |k| == |close|
  {
    PercentK(close, RollingMin(low, KWindow), RollingMax(high, KWindow))
  }

  /** %D from %K (main.py:36). */
  function StochasticD(k: Column): (d: Column)
    ensures |d| == |k|
  {
    RollingMean(k, DWindow)
  }

  /** A scalar broadcast to every row, as `ohlc['Overbought'] = 80` does. */
  function Constant(x: real, rows: nat): (c: Column)
    ensures |c| == rows
    ensures forall i :: 0 <= i < rows ==> c[i] == Some(x)
  {
    seq(rows, _ => Some(x))
  }

  predicate HasPrices(t: Table)
  {
    LowCol in t && HighCol in t && CloseCol in t
  }

  /** What `calculate_stochastic_oscillator` does to the frame: adds %K, %D and the four
      reference bands, drops its two temporary columns, and leaves every other column as
      it was. */
  function AddStochastic(t: Table, rows: nat): (r: Table)
    requires Aligned(t, rows) && HasPrices(t)
    ensures Aligned(r, rows)
    ensures r.Keys == t.Keys - {LowMinCol, HighMaxCol} + StochasticCols
    ensures LowMinCol !in r && HighMaxCol !in r
    ensures forall c :: c in t && c !in StochasticCols && c != LowMinCol && c != HighMaxCol ==>
      r[c] == t[c]
    ensures r[PercentKCol] == StochasticK(t[LowCol], t[HighCol], t[CloseCol])
    ensures r[PercentDCol] == StochasticD(r[PercentKCol])
    ensures forall i :: 0 <= i < rows ==>
      r[OverboughtCol][i] == Some(80.0) && r[ExpectedMaxCol][i] == Some(80.0) &&
      r[ExpectedMinCol][i] == Some(20.0) && r[OversoldCol][i] == Some(20.0)
  {
    var lowMin := RollingMin(t[LowCol], KWindow);
    var highMax := RollingMax(t[HighCol], KWindow);
    var k := PercentK(t[CloseCol], lowMin, highMax);
    t[LowMinCol := lowMin][HighMaxCol := highMax][PercentKCol := k][PercentDCol := RollingMean(k, DWindow)]
      [OverboughtCol := Constant(80.0, rows)][ExpectedMaxCol := Constant(80.0, rows)]
      [ExpectedMinCol := Constant(20.0, rows)][OversoldCol := Constant(20.0, rows)]
      - {LowMinCol, HighMaxCol}
  }

  /** What `calculate_moving_average` does to the frame: adds (or replaces) `MA`, the
      rolling mean of `close`, and changes nothing else. */
  function AddMovingAverage(t: Table, rows: nat, window: nat): (r: Table)
    requires Aligned(t, rows) && CloseCol in t && window > 0
    ensures Aligned(r, rows)
    ensures r.Keys == t.Keys + {MovingAverageCol}
    ensures forall c :: c in t && c != MovingAverageCol ==> r[c] == t[c]
    ensures r[MovingAverageCol] == RollingMean(t[CloseCol], window)
  {
    t[MovingAverageCol := RollingMean(t[CloseCol], window)]
  }

  /** %K at one row: defined exactly when close, the rolling low and the rolling high are
      all defined and the range is not zero, and then given by the stochastic formula.
      In particular it is undefined on the first 13 rows. */
  lemma StochasticKAt(low: Column, high: Column, close: Column, i: nat)
    requires |low| == |close| && |high| == |close| && i < |close|
    ensures var lm, hm, k := RollingMin(low, KWindow)[i], RollingMax(high, KWindow)[i],
                             StochasticK(low, high, close)[i];
      && (k.Some? <==> close[i].Some? && lm.Some? && hm.Some? && hm.value != lm.value)
      && (k.Some? ==> k.value == (close[i].value - lm.value) / (hm.value - lm.value) * 100.0)
    ensures i + 1 < KWindow ==> StochasticK(low, high, close)[i] == None
  {
    RollingMinAt(low, KWindow, i);
  }

  /** %D at one row: defined exactly when %K is defined on that row and the two before
      it, and then the mean of those three values. */
  lemma {:induction false} StochasticDAt(k: Column, i: nat)
    requires i < |k|
    ensures StochasticD(k)[i].Some? <==>
      2 <= i && k[i - 2].Some? && k[i - 1].Some? && k[i].Some?
    ensures StochasticD(k)[i].Some? ==>
      StochasticD(k)[i].value == (k[i - 2].value + k[i - 1].value + k[i].value) / 3.0
  {
    RollingMeanAt(k, DWindow, i);
    if Complete(k, DWindow, i) {
      var vs := WindowValues(k, DWindow, i);
      SumOfThree(vs);
    }
  }

  lemma SumOfThree(vs: seq<real>)
    requires |vs| == 3
    ensures Sum(vs) == vs[0] + vs[1] + vs[2]
  {
    var two, one := vs[..2], vs[..1];
    assert two[..1] == one && one[..0] == [];
    assert Sum(one) == vs[0];
    assert Sum(two) == vs[0] + vs[1];
  }

  /** %D is undefined on the first 15 rows whatever the prices. */
  lemma StochasticDEarly(low: Column, high: Column, close: Column, i: nat)
    requires |low| == |close| && |high| == |close| && i < |close| && i + 1 < KWindow + DWindow - 1
    ensures StochasticD(StochasticK(low, high, close))[i] == None
  {
    var k := StochasticK(low, high, close);
    StochasticDAt(k, i);
    if 2 <= i {
      StochasticKAt(low, high, close, i - 2);
    }
  }
}
