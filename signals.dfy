/**
 * Trade-intent signals (strategy/signals.py): the validated `Signal` record,
 * its derived direction, its factories, and the threshold signal generator
 * that keeps a reference price and a signal history.
 */
module Signals {
  import opened Common

  datatype SignalType = Buy | Sell | Hold | Close | CloseLong | CloseShort

  function TypeName(t: SignalType): string
  {
    match t
    case Buy => "buy"
    case Sell => "sell"
    case Hold => "hold"
    case Close => "close"
    case CloseLong => "close_long"
    case CloseShort => "close_short"
  }

  /** `SignalType(value)`: the member whose value is `s`, if any. */
  function ParseType(s: string): (r: Option<SignalType>)
    ensures r.Some? ==> TypeName(r.value) == s
  {
    if s == "buy" then Some(Buy)
    else if s == "sell" then Some(Sell)
    else if s == "hold" then Some(Hold)
    else if s == "close" then Some(Close)
    else if s == "close_long" then Some(CloseLong)
    else if s == "close_short" then Some(CloseShort)
    else None
  }

  lemma ParseTypeName(t: SignalType)
    ensures ParseType(TypeName(t)) == Some(t)
  {
  }

  datatype Signal = Signal(
    symbol: string,
    signalType: SignalType,
    quantity: real,          // positive for long, negative for short
    timestamp: int,
    priceType: string,       // "market" or "limit"
    limitPrice: Option<real>,
    stopPrice: Option<real>,
    takeProfit: Option<real>,
    priority: int,
    metadata: Option<map<string, string>>)

  datatype SignalError =
    | ZeroQuantity
    | MissingLimitPrice
    | NonPositiveStopPrice
    | NonPositiveTakeProfit
    | BadField(f: FieldError)

  const Market: string := "market"
  const Limit: string := "limit"

  /** What every constructed signal satisfies. */
  predicate IsValid(s: Signal)
  {
    && s.quantity != 0.0
    && !(s.priceType == Limit && s.limitPrice.None?)
    && (s.stopPrice.Some? ==> s.stopPrice.value > 0.0)
    && (s.takeProfit.Some? ==> s.takeProfit.value > 0.0)
  }

  /** The constructor's checks, in order: the signal itself, or the first check it fails. */
  function Validated(s: Signal): (r: Result<Signal, SignalError>)
    ensures r.Ok? <==> IsValid(s)
    ensures r.Ok? ==> r.value == s
    ensures s.quantity == 0.0 ==> r == Err(ZeroQuantity)
    ensures r == Err(MissingLimitPrice) <==> s.quantity != 0.0 && s.priceType == Limit && s.limitPrice.None?
  {
    if s.quantity == 0.0 then Err(ZeroQuantity)
    else if s.priceType == Limit && s.limitPrice.None? then Err(MissingLimitPrice)
    else if s.stopPrice.Some? && s.stopPrice.value <= 0.0 then Err(NonPositiveStopPrice)
    else if s.takeProfit.Some? && s.takeProfit.value <= 0.0 then Err(NonPositiveTakeProfit)
    else Ok(s)
  }

  // ---- derived properties ----

  /** `1 if quantity > 0 else -1`, as the source writes the sign. */
  function QuantitySign(q: real): int
  {
    if q > 0.0 then 1 else -1
  }

  /** The source's direction: +1 long, -1 short, 0 close. */
  function Direction(s: Signal): (r: int)
    ensures -1 <= r <= 1
    ensures r == 0 <==> s.signalType in {Close, CloseLong, CloseShort}
  {
    match s.signalType
    case Buy => QuantitySign(s.quantity)
    case Sell => -QuantitySign(s.quantity)
    case Close => 0
    case CloseLong => 0
    case CloseShort => 0
    case Hold => QuantitySign(s.quantity)
  }

  /** The arithmetic sign of a real. */
  function Sign(x: real): int
  {
    if x > 0.0 then 1 else if x < 0.0 then -1 else 0
  }

  /** How each signal type scales the sign of the quantity. */
  function TypeBias(t: SignalType): int
  {
    match t
    case Buy => 1
    case Sell => -1
    case Hold => 1
    case _ => 0
  }

  /** For every valid signal the direction is the quantity's sign scaled by its type. */
  lemma DirectionIsSignedBias(s: Signal)
    requires IsValid(s)
    ensures Direction(s) == TypeBias(s.signalType) * Sign(s.quantity)
  {
  }

  predicate IsLongSignal(s: Signal) { Direction(s) > 0 }
  predicate IsShortSignal(s: Signal) { Direction(s) < 0 }
  predicate IsCloseSignal(s: Signal) { Direction(s) == 0 }
  predicate IsMarketOrder(s: Signal) { s.priceType == Market }
  predicate IsLimitOrder(s: Signal) { s.priceType == Limit }

  /** Every signal is exactly one of long, short, close. */
  lemma ExactlyOneKind(s: Signal)
    ensures IsLongSignal(s) || IsShortSignal(s) || IsCloseSignal(s)
    ensures !(IsLongSignal(s) && IsShortSignal(s))
    ensures !(IsLongSignal(s) && IsCloseSignal(s))
    ensures !(IsShortSignal(s) && IsCloseSignal(s))
  {
  }

  function AbsQuantity(s: Signal): (r: real)
    ensures IsValid(s) ==> r > 0.0
    ensures r == s.quantity || r == -s.quantity
  {
    Abs(s.quantity)
  }

  // ---- factories ----

  /** `Signal.buy_signal`: a market BUY of |quantity|. */
  function BuySignal(symbol: string, quantity: real, timestamp: int): (r: Result<Signal, SignalError>)
    ensures r.Err? <==> quantity == 0.0
    ensures r.Err? ==> r.error == ZeroQuantity
    ensures r.Ok? ==> Direction(r.value) == 1 && r.value.signalType == Buy
    ensures r.Ok? ==> AbsQuantity(r.value) == Abs(quantity) && r.value.symbol == symbol
  {
    Validated(Signal(symbol, Buy, Abs(quantity), timestamp, Market, None, None, None, 0, None))
  }

  /** `Signal.sell_signal`: a market SELL of |quantity|. */
  function SellSignal(symbol: string, quantity: real, timestamp: int): (r: Result<Signal, SignalError>)
    ensures r.Err? <==> quantity == 0.0
    ensures r.Err? ==> r.error == ZeroQuantity
    ensures r.Ok? ==> Direction(r.value) == -1 && r.value.signalType == Sell
    ensures r.Ok? ==> AbsQuantity(r.value) == Abs(quantity) && r.value.symbol == symbol
  {
    Validated(Signal(symbol, Sell, Abs(quantity), timestamp, Market, None, None, None, 0, None))
  }

  /** `Signal.close_signal`: a CLOSE of `quantity or 0`, where 0 was meant as "close everything". */
  function CloseSignal(symbol: string, quantity: Option<real>, timestamp: int): (r: Result<Signal, SignalError>)
    ensures r.Ok? <==> quantity.Some? && quantity.value != 0.0
    ensures r.Ok? ==> IsCloseSignal(r.value) && r.value.quantity == quantity.value
  {
    var q := if quantity.Some? then quantity.value else 0.0;
    Validated(Signal(symbol, Close, q, timestamp, Market, None, None, None, 0, None))
  }

  /** `Signal.hold_signal`: a HOLD with quantity 0. */
  function HoldSignal(symbol: string, timestamp: int): (r: Result<Signal, SignalError>)
  {
    Validated(Signal(symbol, Hold, 0.0, timestamp, Market, None, None, None, 0, None))
  }

  /** A hold signal, and a close signal without a quantity, never pass validation. */
  lemma ZeroQuantityFactoriesFail(symbol: string, timestamp: int)
    ensures HoldSignal(symbol, timestamp) == Err(ZeroQuantity)
    ensures CloseSignal(symbol, None, timestamp) == Err(ZeroQuantity)
    ensures CloseSignal(symbol, Some(0.0), timestamp) == Err(ZeroQuantity)
  {
  }

  /**
   * Validation as the close factory evidently intends it: the close family may
   * carry quantity 0, meaning "close the whole position".
   */
  function ValidatedCloseAll(s: Signal): (r: Result<Signal, SignalError>)
    ensures s.signalType !in {Close, CloseLong, CloseShort} ==> r == Validated(s)
    ensures s.signalType in {Close, CloseLong, CloseShort} && s.quantity == 0.0 ==>
              (r.Ok? <==> Validated(s.(quantity := 1.0)).Ok?)
  {
    if s.signalType in {Close, CloseLong, CloseShort} && s.quantity == 0.0 then
      match Validated(s.(quantity := 1.0))
      case Ok(_) => Ok(s)
      case Err(e) => Err(e)
    else Validated(s)
  }

  /** With the intended validation a quantity-less close is a valid close-everything signal. */
  lemma CloseAllAccepted(symbol: string, timestamp: int)
    ensures var r := ValidatedCloseAll(Signal(symbol, Close, 0.0, timestamp, Market, None, None, None, 0, None));
            r.Ok? && IsCloseSignal(r.value) && r.value.quantity == 0.0
  {
  }

  // ---- field maps ----

  const SignalFields: set<string> :=
    {"symbol", "signal_type", "quantity", "timestamp", "price_type", "limit_price",
     "stop_price", "take_profit", "priority", "metadata"}

  function ToDict(s: Signal): (d: FieldMap)
    ensures d.Keys == SignalFields
    ensures d["signal_type"] == Str(TypeName(s.signalType)) && d["quantity"] == Num(s.quantity)
  {
    map["symbol" := Str(s.symbol), "signal_type" := Str(TypeName(s.signalType)),
        "quantity" := Num(s.quantity), "timestamp" := Time(s.timestamp),
        "price_type" := Str(s.priceType), "limit_price" := OptNum(s.limitPrice),
        "stop_price" := OptNum(s.stopPrice), "take_profit" := OptNum(s.takeProfit),
        "priority" := Int(s.priority), "metadata" := OptDict(s.metadata)]
  }

  function Lift<T>(r: Result<T, FieldError>): Result<T, SignalError>
  {
    match r
    case Ok(v) => Ok(v)
    case Err(e) => Err(BadField(e))
  }

  /** `Signal.from_dict`: convert the type name, bind the fields with their defaults, validate. */
  function FromDict(d: FieldMap): (r: Result<Signal, SignalError>)
    ensures r.Ok? ==> IsValid(r.value) && d.Keys <= SignalFields
    ensures r.Ok? && "price_type" !in d ==> IsMarketOrder(r.value)
  {
    if !(d.Keys <= SignalFields) then Err(BadField(UnexpectedField))
    else
      var sym :- Lift(GetStr(d, "symbol"));
      var name :- Lift(GetStr(d, "signal_type"));
      var t :- if ParseType(name).Some? then Ok(ParseType(name).value)
               else Err(BadField(BadEnumValue("signal_type")));
      var q :- Lift(GetNum(d, "quantity"));
      var ts :- Lift(GetTime(d, "timestamp"));
      var pt :- Lift(GetStrOr(d, "price_type", Market));
      var lp :- Lift(GetOptNum(d, "limit_price"));
      var sp :- Lift(GetOptNum(d, "stop_price"));
      var tp :- Lift(GetOptNum(d, "take_profit"));
      var pr :- Lift(GetIntOr(d, "priority", 0));
      var md :- Lift(GetOptDict(d, "metadata"));
      Validated(Signal(sym, t, q, ts, pt, lp, sp, tp, pr, md))
  }

  /** Converting a valid signal to a field map and back gives the same signal. */
  lemma RoundTrip(s: Signal)
    requires IsValid(s)
    ensures FromDict(ToDict(s)) == Ok(s)
  {
    ParseTypeName(s.signalType);
  }

  /** The integer quantity the factories store (`quantity=1`) comes back as the same signal. */
  lemma IntegerQuantityAccepted(s: Signal, q: int)
    requires IsValid(s) && s.quantity == q as real
    ensures FromDict(ToDict(s)["quantity" := Int(q)]) == Ok(s)
  {
    var d := ToDict(s)["quantity" := Int(q)];
    assert d.Keys == SignalFields;
    ParseTypeName(s.signalType);
  }

  /**
   * The threshold generator (`SimpleSignalGenerator` with the history kept by its
   * base class `SignalGenerator`): the first price becomes the reference; a price
   * above reference * buyThreshold emits a buy, one below reference * sellThreshold
   * a sell, and either resets the reference to that price.
   */
  class SimpleSignalGenerator {
    const symbol: string
    const buyThreshold: real
    const sellThreshold: real
    var lastSignal: Option<Signal>
    var signalHistory: seq<Signal>
    var referencePrice: Option<real>

    /** The last signal is the newest entry of the history, and there is one exactly when the history is non-empty. */
    ghost predicate Valid()
      reads this
    {
      && (lastSignal.None? <==> signalHistory == [])
      && (lastSignal.Some? ==> lastSignal.value == signalHistory[|signalHistory| - 1])
    }

    constructor (symbol: string, buyThreshold: real, sellThreshold: real)
      ensures Valid()
      ensures this.symbol == symbol && this.buyThreshold == buyThreshold && this.sellThreshold == sellThreshold
      ensures lastSignal == None && signalHistory == [] && referencePrice == None
    {
      this.symbol := symbol;
      this.buyThreshold := buyThreshold;
      this.sellThreshold := sellThreshold;
      lastSignal := None;
      signalHistory := [];
      referencePrice := None;
    }

    /** `add_signal`: remember the signal as the last one and append it to the history. */
    method AddSignal(s: Signal)
      requires Valid()
      modifies this
      ensures Valid()
      ensures lastSignal == Some(s) && signalHistory == old(signalHistory) + [s]
      ensures referencePrice == old(referencePrice)
    {
      lastSignal := Some(s);
      signalHistory := signalHistory + [s];
    }

    /** `get_last_signal`: the newest signal of the history, if there is one. */
    function GetLastSignal(): (r: Option<Signal>)
      reads this
      requires Valid()
      ensures r.None? <==> signalHistory == []
      ensures r.Some? ==> r.value == signalHistory[|signalHistory| - 1]
    {
      lastSignal
    }

    /** `get_signal_history`: a copy of the history, whose last entry is the last signal. */
    function GetSignalHistory(): (r: seq<Signal>)
      reads this
      requires Valid()
      ensures r == signalHistory
      ensures r == [] <==> GetLastSignal().None?
      ensures r != [] ==> GetLastSignal() == Some(r[|r| - 1])
    {
      signalHistory
    }

    /** `clear_history`: forget the signals; the reference price stays. */
    method ClearHistory()
      modifies this
      ensures Valid()
      ensures signalHistory == [] && lastSignal == None
      ensures referencePrice == old(referencePrice)
    {
      signalHistory := [];
      lastSignal := None;
    }

    method SetReferencePrice(price: real)
      requires Valid()
      modifies this
      ensures Valid()
      ensures referencePrice == Some(price)
      ensures signalHistory == old(signalHistory) && lastSignal == old(lastSignal)
    {
      referencePrice := Some(price);
    }

    /**
     * `generate_signal`. A factory that raises (quantity 0) leaves every field
     * as it was, because the exception escapes before the history and the
     * reference are touched.
     */
    method GenerateSignal(currentPrice: real, quantity: real, now: int)
      returns (r: Result<Option<Signal>, SignalError>)
      requires Valid()
      modifies this
      ensures Valid()
      ensures old(referencePrice).None? ==>
                r == Ok(None) && referencePrice == Some(currentPrice)
                && signalHistory == old(signalHistory) && lastSignal == old(lastSignal)
      ensures old(referencePrice).Some? && currentPrice > old(referencePrice).value * buyThreshold ==>
                r == (match BuySignal(symbol, quantity, now)
                      case Ok(s) => Ok(Some(s))
                      case Err(e) => Err(e))
      ensures (old(referencePrice).Some? && !(currentPrice > old(referencePrice).value * buyThreshold)
               && currentPrice < old(referencePrice).value * sellThreshold) ==>
                r == (match SellSignal(symbol, quantity, now)
                      case Ok(s) => Ok(Some(s))
                      case Err(e) => Err(e))
      ensures old(referencePrice).Some? && r.Ok? && r.value.Some? ==>
                signalHistory == old(signalHistory) + [r.value.value] && lastSignal == r.value
                && referencePrice == Some(currentPrice)
      ensures old(referencePrice).Some? && !(r.Ok? && r.value.Some?) ==>
                signalHistory == old(signalHistory) && lastSignal == old(lastSignal)
                && referencePrice == old(referencePrice)
      ensures (old(referencePrice).Some? && !(currentPrice > old(referencePrice).value * buyThreshold)
               && !(currentPrice < old(referencePrice).value * sellThreshold)) ==> r == Ok(None)
    {
      if referencePrice.None? {
        referencePrice := Some(currentPrice);
        return Ok(None);
      }
      var reference := referencePrice.value;
      if currentPrice > reference * buyThreshold {
        var made := BuySignal(symbol, quantity, now);
        if made.Err? {
          return Err(made.error);
        }
        AddSignal(made.value);
        referencePrice := Some(currentPrice);
        return Ok(Some(made.value));
      } else if currentPrice < reference * sellThreshold {
        var made := SellSignal(symbol, quantity, now);
        if made.Err? {
          return Err(made.error);
        }
        AddSignal(made.value);
        referencePrice := Some(currentPrice);
        return Ok(Some(made.value));
      }
      return Ok(None);
    }
  }
}
