/** The accept/reject decision of `fetch_ohlc_data` (main.py:9-26), on a response that
    has already been received and decoded. */
module Fetch {
  import opened Optional
  import opened Ohlc

  /** One member of the JSON `result` object: its key and the rows listed under it. */
  datatype Entry = Entry(key: string, rows: seq<Candle>)

  /** What the function looks at in a response: the HTTP status and the members of the
      `result` object in order (none when the body has no `result`). */
  datatype Response = Response(status: int, result: seq<Entry>)

  const OkStatus := 200
  const NoDataWarning := "No valid data available for the selected cryptocurrency pair."
  const ApiErrorWarning := "Error in API response. Please try again."

  /** The function's return value (`candles`, None for Python's None) and the warning it
      shows on the dashboard, if any. */
  datatype Fetched = Fetched(candles: Option<seq<Candle>>, warning: Option<string>)

  /** Rows are returned exactly when the status is 200 and the first member of `result`
      holds at least one row; they are then that member's rows. Otherwise None is
      returned and exactly one warning is shown, the API-error one exactly when the
      status is not 200. */
  function FetchOhlcData(resp: Response): (r: Fetched)
    ensures r.candles.Some? <==>
      resp.status == OkStatus && |resp.result| > 0 && |resp.result[0].rows| > 0
    ensures r.candles.Some? ==> r.candles.value == resp.result[0].rows && r.warning == None
    ensures r.candles.None? ==> r.warning.Some?
    ensures r.warning == Some(ApiErrorWarning) <==> resp.status != OkStatus
    ensures r.warning == Some(NoDataWarning) <==>
      resp.status == OkStatus && (resp.result == [] || resp.result[0].rows == [])
  {
    if resp.status == OkStatus then
      if |resp.result| > 0 && |resp.result[0].rows| > 0 then
        Fetched(Some(resp.result[0].rows), None)
      else
        Fetched(None, Some(NoDataWarning))
    else
      Fetched(None, Some(ApiErrorWarning))
  }
}
