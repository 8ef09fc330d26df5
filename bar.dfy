/**
 * One OHLCV bar of a futures contract (data/bar.py): a record that is
 * validated when it is built, with derived prices and candle measurements.
 */
module Bars {
  import opened Common

  datatype Bar = Bar(
    symbol: string,
    datetime: int,       // caller-supplied instant
    open: real,
    high: real,
    low: real,
    close: real,
    volume: int,
    openInterest: int,
    freq: string)

  /** The check that stops construction, in the order the constructor makes them. */
  datatype BarError =
    | HighBelowOthers        // high < max(open, close, low)
    | LowAboveOthers         // low > min(open, close, high)
    | NegativeVolume
    | NegativeOpenInterest
    | BadField(f: FieldError)

  const DefaultFreq: string := "1min"

  function Max3(a: real, b: real, c: real): (m: real)
    ensures m >= a && m >= b && m >= c && (m == a || m == b || m == c)
  {
    if a >= b && a >= c then a else if b >= c then b else c
  }

  function Min3(a: real, b: real, c: real): (m: real)
    ensures m <= a && m <= b && m <= c && (m == a || m == b || m == c)
  {
    if a <= b && a <= c then a else if b <= c then b else c
  }

  function Max2(a: real, b: real): (m: real)
    ensures m >= a && m >= b && (m == a || m == b)
  {
    if a >= b then a else b
  }

  function Min2(a: real, b: real): (m: real)
    ensures m <= a && m <= b && (m == a || m == b)
  {
    if a <= b then a else b
  }

  /** What every constructed bar satisfies. */
  predicate IsValid(b: Bar)
  {
    && b.high >= Max3(b.open, b.close, b.low)
    && b.low <= Min3(b.open, b.close, b.high)
    && b.volume >= 0
    && b.openInterest >= 0
  }

  /** The first check a bar fails, if any. */
  function Check(b: Bar): (e: Option<BarError>)
    ensures e.None? <==> IsValid(b)
    ensures e == Some(HighBelowOthers) <==> b.high < b.open || b.high < b.close || b.high < b.low
    ensures e == Some(NegativeVolume) ==> b.high >= b.open && b.low <= b.close && b.volume < 0
  {
    if b.high < Max3(b.open, b.close, b.low) then Some(HighBelowOthers)
    else if b.low > Min3(b.open, b.close, b.high) then Some(LowAboveOthers)
    else if b.volume < 0 then Some(NegativeVolume)
    else if b.openInterest < 0 then Some(NegativeOpenInterest)
    else None
  }

  /** The constructor: the bar itself when every check passes, otherwise the first failure. */
  function MakeBar(symbol: string, datetime: int, open: real, high: real, low: real, close: real,
                   volume: int, openInterest: int, freq: string): (r: Result<Bar, BarError>)
    ensures r.Ok? <==> low <= open <= high && low <= close <= high && low <= high
                       && volume >= 0 && openInterest >= 0
    ensures r.Ok? ==> r.value == Bar(symbol, datetime, open, high, low, close, volume, openInterest, freq)
  {
    var b := Bar(symbol, datetime, open, high, low, close, volume, openInterest, freq);
    match Check(b)
    case Some(e) => Err(e)
    case None => Ok(b)
  }

  // ---- derived quantities ----

  /** (high + low + close) / 3 lies within the bar's range. */
  function TypicalPrice(b: Bar): (r: real)
    ensures IsValid(b) ==> b.low <= r <= b.high
    ensures 3.0 * r == b.high + b.low + b.close
  {
    (b.high + b.low + b.close) / 3.0
  }

  /** (open + high + low + close) / 4 lies within the bar's range. */
  function WeightedPrice(b: Bar): (r: real)
    ensures IsValid(b) ==> b.low <= r <= b.high
    ensures 4.0 * r == b.open + b.high + b.low + b.close
  {
    (b.open + b.high + b.low + b.close) / 4.0
  }

  function PriceRange(b: Bar): (r: real)
    ensures IsValid(b) ==> r >= 0.0
  {
    b.high - b.low
  }

  function BodySize(b: Bar): (r: real)
    ensures r >= 0.0
    ensures r == b.close - b.open || r == b.open - b.close
  {
    Abs(b.close - b.open)
  }

  function UpperShadow(b: Bar): (r: real)
    ensures IsValid(b) ==> r >= 0.0
    ensures r + Max2(b.open, b.close) == b.high
  {
    b.high - Max2(b.open, b.close)
  }

  function LowerShadow(b: Bar): (r: real)
    ensures IsValid(b) ==> r >= 0.0
    ensures r + b.low == Min2(b.open, b.close)
  {
    Min2(b.open, b.close) - b.low
  }

  predicate IsBullish(b: Bar) { b.close > b.open }
  predicate IsBearish(b: Bar) { b.close < b.open }
  predicate IsDoji(b: Bar) { b.close == b.open }

  /** The range of a bar splits into upper shadow, body and lower shadow. */
  lemma RangeDecomposes(b: Bar)
    ensures PriceRange(b) == UpperShadow(b) + BodySize(b) + LowerShadow(b)
  {
  }

  /** Every bar is exactly one of bullish, bearish, doji. */
  lemma CandleKindExclusive(b: Bar)
    ensures IsBullish(b) || IsBearish(b) || IsDoji(b)
    ensures !(IsBullish(b) && IsBearish(b)) && !(IsBullish(b) && IsDoji(b)) && !(IsBearish(b) && IsDoji(b))
  {
  }

  /** A doji has no body, so its range is its two shadows. */
  lemma DojiRange(b: Bar)
    requires IsDoji(b)
    ensures BodySize(b) == 0.0 && PriceRange(b) == UpperShadow(b) + LowerShadow(b)
  {
    RangeDecomposes(b);
  }

  // ---- field maps ----

  const BarFields: set<string> :=
    {"symbol", "datetime", "open", "high", "low", "close", "volume", "open_interest", "freq"}

  function ToDict(b: Bar): (d: FieldMap)
    ensures d.Keys == BarFields
    ensures d["close"] == Num(b.close) && d["freq"] == Str(b.freq)
  {
    map["symbol" := Str(b.symbol), "datetime" := Time(b.datetime),
        "open" := Num(b.open), "high" := Num(b.high), "low" := Num(b.low), "close" := Num(b.close),
        "volume" := Int(b.volume), "open_interest" := Int(b.openInterest), "freq" := Str(b.freq)]
  }

  /** `Bar(**data)`: bind every field (freq defaults to "1min"), then validate. */
  function FromDict(d: FieldMap): (r: Result<Bar, BarError>)
    ensures r.Ok? ==> IsValid(r.value) && d.Keys <= BarFields
    ensures "freq" !in d && r.Ok? ==> r.value.freq == DefaultFreq
  {
    if !(d.Keys <= BarFields) then Err(BadField(UnexpectedField))
    else
      var s :- Lift(GetStr(d, "symbol"));
      var t :- Lift(GetTime(d, "datetime"));
      var o :- Lift(GetNum(d, "open"));
      var h :- Lift(GetNum(d, "high"));
      var l :- Lift(GetNum(d, "low"));
      var c :- Lift(GetNum(d, "close"));
      var v :- Lift(GetInt(d, "volume"));
      var oi :- Lift(GetInt(d, "open_interest"));
      var f :- Lift(GetStrOr(d, "freq", DefaultFreq));
      MakeBar(s, t, o, h, l, c, v, oi, f)
  }

  function Lift<T>(r: Result<T, FieldError>): Result<T, BarError>
  {
    match r
    case Ok(v) => Ok(v)
    case Err(e) => Err(BadField(e))
  }

  /** Converting a valid bar to a field map and back gives the same bar. */
  lemma RoundTrip(b: Bar)
    requires IsValid(b)
    ensures FromDict(ToDict(b)) == Ok(b)
  {
  }

  /** Integer prices, which `Bar(**data)` stores as given, build the same bar. */
  lemma IntegerPricesAccepted(b: Bar, o: int, h: int, l: int, c: int)
    requires IsValid(b)
    requires b.open == o as real && b.high == h as real && b.low == l as real && b.close == c as real
    ensures FromDict(ToDict(b)["open" := Int(o)]["high" := Int(h)]["low" := Int(l)]["close" := Int(c)]) == Ok(b)
  {
    var d := ToDict(b)["open" := Int(o)]["high" := Int(h)]["low" := Int(l)]["close" := Int(c)];
    assert d.Keys == BarFields;
  }

  /** Whole-number floats for the volume and the open interest build the same bar. */
  lemma WholeFloatCountsAccepted(b: Bar)
    requires IsValid(b)
    ensures FromDict(ToDict(b)["volume" := Num(b.volume as real)]["open_interest" := Num(b.openInterest as real)]) == Ok(b)
  {
    var d := ToDict(b)["volume" := Num(b.volume as real)]["open_interest" := Num(b.openInterest as real)];
    assert d.Keys == BarFields;
  }
}
