/** The hourly candle table built by `fetch_ohlc_data` (main.py): one row per candle,
    the columns named after the eight fields of an exchange row. */
module Ohlc {
  import opened Optional
  import opened Rolling

  /** One exchange row: `[datetime, open, high, low, close, vwap, volume, count]`. */
  datatype Candle = Candle(
    datetime: int, open: real, high: real, low: real, close: real,
    vwap: real, volume: real, count: int)

  /** The candle invariant the exchange is trusted to keep; nothing in main.py checks it. */
  predicate WellFormed(cs: seq<Candle>)
  {
    forall i :: 0 <= i < |cs| ==> cs[i].low <= cs[i].close <= cs[i].high
  }

  datatype Field = Datetime | Open | High | Low | Close | Vwap | Volume | Count

  /** The column names that occur in the core: the eight fetched fields, the two
      temporaries of the stochastic, the columns it adds, and `MA`. */
  datatype ColumnName =
    | FieldCol(field: Field)
    | LowMinCol | HighMaxCol | PercentKCol | PercentDCol
    | OverboughtCol | ExpectedMaxCol | ExpectedMinCol | OversoldCol
    | MovingAverageCol

  /** The pandas label of each column. */
  function Label(c: ColumnName): string
  {
    match c
    case FieldCol(f) => (
      match f
      case Datetime => "datetime"
      case Open => "open"
      case High => "high"
      case Low => "low"
      case Close => "close"
      case Vwap => "vwap"
      case Volume => "volume"
      case Count => "count")
    case LowMinCol => "low_min"
    case HighMaxCol => "high_max"
    case PercentKCol => "%K"
    case PercentDCol => "%D"
    case OverboughtCol => "Overbought"
    case ExpectedMaxCol => "Expected_Max"
    case ExpectedMinCol => "Expected_Min"
    case OversoldCol => "Oversold"
    case MovingAverageCol => "MA"
  }

  const LowCol := FieldCol(Low)
  const HighCol := FieldCol(High)
  const CloseCol := FieldCol(Close)

  /** A frame's columns by name. */
  type Table = map<ColumnName, Column>

  /** Every column of the table has exactly one entry per row. */
  predicate Aligned(t: Table, rows: nat)
  {
    forall c :: c in t ==> |t[c]| == rows
  }

  function FieldValue(c: Candle, f: Field): real
  {
    match f
    case Datetime => c.datetime as real
    case Open => c.open
    case High => c.high
    case Low => c.low
    case Close => c.close
    case Vwap => c.vwap
    case Volume => c.volume
    case Count => c.count as real
  }

  /** One field of every candle, as a column without NaN. */
  function ColumnOf(cs: seq<Candle>, f: Field): (col: Column)
    ensures |col| == |cs|
    ensures forall i :: 0 <= i < |cs| ==> col[i] == Some(FieldValue(cs[i], f))
  {
    seq(|cs|, i requires 0 <= i < |cs| => Some(FieldValue(cs[i], f)))
  }

  /** The frame `pd.DataFrame(rows, columns=[...])` builds from the fetched rows. */
  function CandleTable(cs: seq<Candle>): (t: Table)
    ensures Aligned(t, |cs|)
    ensures forall c :: c in t <==> c.FieldCol?
    ensures forall f :: t[FieldCol(f)] == ColumnOf(cs, f)
  {
    map f: Field :: FieldCol(f) := ColumnOf(cs, f)
  }
}
