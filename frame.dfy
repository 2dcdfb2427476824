/** The pandas DataFrame that main.py mutates in place: `calculate_stochastic_oscillator`
    and `calculate_moving_average` assign new columns to the frame they are given (and
    the former drops two columns with `inplace=True`), then return the same object. */
module Frame {
  import opened Rolling
  import opened Ohlc
  import opened Indicators

  class OhlcFrame {
    /** The frame's columns by name. */
    var columns: Table
    /** The number of rows; no core operation adds or removes rows. */
    const rows: nat

    ghost predicate Valid()
      reads this
    {
      Aligned(columns, rows)
    }

    /** The frame `fetch_ohlc_data` builds from the exchange rows. */
    constructor FromCandles(cs: seq<Candle>)
      ensures Valid() && rows == |cs| && columns == CandleTable(cs)
    {
      rows := |cs|;
      columns := CandleTable(cs);
    }

    /** `calculate_stochastic_oscillator(ohlc)`, column assignment by column assignment. */
    method CalculateStochasticOscillator()
      requires Valid() && HasPrices(columns)
      modifies this
      ensures Valid()
      ensures columns == AddStochastic(old(columns), rows)
    {
      ghost var before := columns;
      columns := columns[LowMinCol := RollingMin(columns[LowCol], KWindow)];
      columns := columns[HighMaxCol := RollingMax(columns[HighCol], KWindow)];
      columns := columns[PercentKCol := PercentK(columns[CloseCol], columns[LowMinCol], columns[HighMaxCol])];
      columns := columns[PercentDCol := RollingMean(columns[PercentKCol], DWindow)];
      columns := columns[OverboughtCol := Constant(80.0, rows)];
      columns := columns[ExpectedMaxCol := Constant(80.0, rows)];
      columns := columns[ExpectedMinCol := Constant(20.0, rows)];
      columns := columns[OversoldCol := Constant(20.0, rows)];
      columns := columns - {LowMinCol, HighMaxCol};
      assert columns == AddStochastic(before, rows);
    }

    /** `calculate_moving_average(ohlc, window)`. */
    method CalculateMovingAverage(window: nat)
      requires Valid() && CloseCol in columns && window > 0
      modifies this
      ensures Valid()
      ensures columns == AddMovingAverage(old(columns), rows, window)
    {
      columns := columns[MovingAverageCol := RollingMean(columns[CloseCol], window)];
    }
  }
}
