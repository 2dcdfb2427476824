/** The "Go" flow of main.py:84-91: look up the pair, fetch its candles, add the
    indicators and store the frame under the chosen label. */
module Dashboard {
  import opened Optional
  import opened Rolling
  import opened Ohlc
  import opened Indicators
  import opened Oscillator
  import opened MovingAverage
  import opened Pairs
  import opened Fetch
  import opened Frame

  /** The frame main.py:89-90 produces from fetched candles. */
  function IndicatorTable(cs: seq<Candle>): (t: Table)
    ensures Aligned(t, |cs|)
  {
    AddMovingAverage(AddStochastic(CandleTable(cs), |cs|), |cs|, DashboardWindow)
  }

  /** The indicator frame holds the fetched columns unchanged, %K, %D, the four bands
      and MA over 10 closes, all aligned to the candles. */
  lemma IndicatorTableShape(cs: seq<Candle>)
    ensures var t := IndicatorTable(cs);
      && Aligned(t, |cs|)
      && t.Keys == CandleTable(cs).Keys + StochasticCols + {MovingAverageCol}
      && (forall c :: c in CandleTable(cs) ==> t[c] == CandleTable(cs)[c])
      && t[PercentKCol] == CandleK(cs) && t[PercentDCol] == CandleD(cs)
      && t[MovingAverageCol] == CandleMA(cs, DashboardWindow)
  {
    StochasticOfCandles(cs);
  }

  lemma StochasticOfCandles(cs: seq<Candle>)
    ensures var t := AddStochastic(CandleTable(cs), |cs|);
      && t.Keys == CandleTable(cs).Keys + StochasticCols
      && (forall c :: c in CandleTable(cs) ==> t[c] == CandleTable(cs)[c])
      && t[CloseCol] == ColumnOf(cs, Close)
      && t[PercentKCol] == CandleK(cs) && t[PercentDCol] == CandleD(cs)
  {
    var fetched := CandleTable(cs);
    assert LowMinCol !in fetched && HighMaxCol !in fetched;
    assert fetched.Keys * StochasticCols == {};
  }

  /** The outcome of one press of "Go": the dictionary `ohlc_data`, or the TypeError that
      `calculate_stochastic_oscillator` raises when handed None. */
  datatype RunResult = Completed(data: map<string, Table>) | TypeError

  /** main.py:84-91 as written: the result of `fetch_ohlc_data` goes straight into
      `calculate_stochastic_oscillator`, even when it is None. `respond` stands for the
      exchange: it gives the response for a pair symbol. */
  function RunAsWritten(goPressed: bool, choice: string, respond: string -> Response): (r: RunResult)
    ensures r == TypeError ==> goPressed && SelectionAccepted(choice)
    ensures r.Completed? ==> r.data.Keys <= {choice}
    ensures r.Completed? && choice in r.data ==>
      goPressed && SelectionAccepted(choice) &&
      FetchOhlcData(respond(PairMapping[choice])).candles.Some? &&
      r.data[choice] == IndicatorTable(FetchOhlcData(respond(PairMapping[choice])).candles.value)
  {
    if !goPressed || !SelectionAccepted(choice) then Completed(map[])
    else
      var fetched := FetchOhlcData(respond(PairMapping[choice]));
      if fetched.candles.None? then TypeError
      else Completed(map[choice := IndicatorTable(fetched.candles.value)])
  }

  /** The as-written flow fails with a TypeError exactly when "Go" is pressed on an
      offered label and the fetch returns None. */
  lemma AsWrittenCrashesOnFailedFetch(goPressed: bool, choice: string, respond: string -> Response)
    ensures RunAsWritten(goPressed, choice, respond) == TypeError <==>
      goPressed && choice in Labels &&
      FetchOhlcData(respond(PairMapping[choice])).candles.None?
  {
    SelectionAcceptedIffOffered(choice);
  }

  /** A concrete instance: the exchange answers 500 for Bitcoin. */
  lemma AsWrittenCrashesOnServerError()
    ensures RunAsWritten(true, "Bitcoin", _ => Response(500, [])) == TypeError
  {
    SelectionAcceptedIffOffered("Bitcoin");
  }

  /** main.py:84-91 with the evident intent: a failed fetch (its warning already shown)
      leaves `ohlc_data` empty instead of passing None on. */
  function Run(goPressed: bool, choice: string, respond: string -> Response): (data: map<string, Table>)
    ensures data.Keys <= {choice}
    ensures choice in data <==>
      goPressed && SelectionAccepted(choice) &&
      FetchOhlcData(respond(PairMapping[choice])).candles.Some?
  {
    if !goPressed || !SelectionAccepted(choice) then map[]
    else
      var fetched := FetchOhlcData(respond(PairMapping[choice]));
      if fetched.candles.None? then map[]
      else map[choice := IndicatorTable(fetched.candles.value)]
  }

  /** After "Go", the corrected flow stores a frame exactly for an offered label whose
      fetch succeeded. */
  lemma RunStoresOfferedChoice(choice: string, respond: string -> Response)
    ensures choice in Run(true, choice, respond) <==>
      choice in Labels && FetchOhlcData(respond(PairMapping[choice])).candles.Some?
  {
    SelectionAcceptedIffOffered(choice);
  }

  /** What the corrected flow stores is the indicator frame of the fetched candles:
      non-empty, every column aligned to the candles, and %K, %D and MA as specified. */
  lemma RunStoresIndicators(goPressed: bool, choice: string, respond: string -> Response)
    requires choice in Run(goPressed, choice, respond)
    ensures var cs := FetchOhlcData(respond(PairMapping[choice])).candles.value;
      var t := Run(goPressed, choice, respond)[choice];
      && cs != [] && Aligned(t, |cs|)
      && PercentKCol in t && t[PercentKCol] == CandleK(cs)
      && PercentDCol in t && t[PercentDCol] == CandleD(cs)
      && MovingAverageCol in t && t[MovingAverageCol] == CandleMA(cs, DashboardWindow)
  {
    IndicatorTableShape(FetchOhlcData(respond(PairMapping[choice])).candles.value);
  }

  /** The corrected flow never fails, and it stores exactly what the as-written flow
      stores whenever the latter does not fail. */
  lemma RunRefinesAsWritten(goPressed: bool, choice: string, respond: string -> Response)
    ensures RunAsWritten(goPressed, choice, respond) != TypeError ==>
      RunAsWritten(goPressed, choice, respond) == Completed(Run(goPressed, choice, respond))
    ensures RunAsWritten(goPressed, choice, respond) == TypeError ==>
      Run(goPressed, choice, respond) == map[]
  {
  }

  /** main.py:89-90 on fetched candles: build the frame, then add the stochastic and
      the moving average to it in place. */
  method ComputeIndicators(cs: seq<Candle>) returns (ohlc: OhlcFrame)
    ensures fresh(ohlc) && ohlc.Valid() && ohlc.rows == |cs|
    ensures ohlc.columns == IndicatorTable(cs)
  {
    ohlc := new OhlcFrame.FromCandles(cs);
    ohlc.CalculateStochasticOscillator();
    ohlc.CalculateMovingAverage(DashboardWindow);
  }

  /** The body of `if go_button:` (main.py:86-91) on the in-place frame, with the
      corrected None check: the frames it stores are new and hold exactly the tables of
      `Run`. */
  method Go(choice: string, respond: string -> Response) returns (ohlcData: map<string, OhlcFrame>)
    ensures ohlcData.Keys == Run(true, choice, respond).Keys
    ensures choice in ohlcData ==>
      var ohlc := ohlcData[choice];
      fresh(ohlc) && ohlc.Valid() && ohlc.columns == Run(true, choice, respond)[choice]
  {
    ohlcData := map[];
    var selectedPair := LookupPair(choice);
    if selectedPair.Some? && selectedPair.value != "" {
      var fetched := FetchOhlcData(respond(selectedPair.value));
      if fetched.candles.Some? {
        var ohlc := ComputeIndicators(fetched.candles.value);
        ohlcData := map[choice := ohlc];
      }
    }
  }
}
