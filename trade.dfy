/**
 * Trade records (engine/trade.py, class Trade): a validated fill record whose
 * status, price, fill time and metadata are updated in place by `fill`,
 * `cancel` and `reject`. The fields are gathered in the value `TradeData`;
 * each update is a pure transition on it, and the class `Trade` is proved
 * against those transitions.
 */
module Trades {
  import opened Common
  import Positions

  datatype TradeType = Buy | Sell | CloseLong | CloseShort

  datatype TradeStatus = Pending | Filled | Cancelled | Rejected

  function TypeName(t: TradeType): string
  {
    match t
    case Buy => "buy"
    case Sell => "sell"
    case CloseLong => "close_long"
    case CloseShort => "close_short"
  }

  /** `TradeType(value)`. */
  function ParseType(s: string): (r: Option<TradeType>)
    ensures r.Some? ==> TypeName(r.value) == s
  {
    if s == "buy" then Some(Buy)
    else if s == "sell" then Some(Sell)
    else if s == "close_long" then Some(CloseLong)
    else if s == "close_short" then Some(CloseShort)
    else None
  }

  function StatusName(s: TradeStatus): string
  {
    match s
    case Pending => "pending"
    case Filled => "filled"
    case Cancelled => "cancelled"
    case Rejected => "rejected"
  }

  /** `TradeStatus(value)`. */
  function ParseStatus(s: string): (r: Option<TradeStatus>)
    ensures r.Some? ==> StatusName(r.value) == s
  {
    if s == "pending" then Some(Pending)
    else if s == "filled" then Some(Filled)
    else if s == "cancelled" then Some(Cancelled)
    else if s == "rejected" then Some(Rejected)
    else None
  }

  lemma NamesParse(t: TradeType, s: TradeStatus)
    ensures ParseType(TypeName(t)) == Some(t)
    ensures ParseStatus(StatusName(s)) == Some(s)
  {
    match t
    case Buy =>
    case Sell =>
    case CloseLong =>
    case CloseShort =>
  }

  type Metadata = map<string, string>

  datatype TradeData = TradeData(
    tradeId: string,
    symbol: string,
    tradeType: TradeType,
    quantity: real,
    price: real,
    timestamp: int,              // caller-supplied instant
    status: TradeStatus,
    commission: real,
    slippage: real,
    realizedPnl: real,
    orderPrice: Option<real>,
    fillTime: Option<int>,
    metadata: Option<Metadata>)  // None only when a field map says so

  datatype TradeError =
    | NonPositiveQuantity
    | NonPositivePrice
    | NegativeCommission
    | MetadataMissing             // writing a reject reason into a metadata of None
    | BadField(f: FieldError)

  /** The constructor's checks (`__post_init__`), in order. */
  function Validated(t: TradeData): (r: Result<TradeData, TradeError>)
    ensures r.Ok? <==> IsValid(t)
    ensures r.Ok? ==> r.value == t
    ensures t.quantity <= 0.0 ==> r == Err(NonPositiveQuantity)
  {
    if t.quantity <= 0.0 then Err(NonPositiveQuantity)
    else if t.price <= 0.0 then Err(NonPositivePrice)
    else if t.commission < 0.0 then Err(NegativeCommission)
    else Ok(t)
  }

  predicate IsValid(t: TradeData)
  {
    t.quantity > 0.0 && t.price > 0.0 && t.commission >= 0.0
  }

  /**
   * The four factories: a pending trade of the given type with default costs
   * and empty metadata; `timestamp or now()`. Keyword overrides are not modelled.
   */
  function NewTrade(id: string, symbol: string, tradeType: TradeType, quantity: real, price: real,
                    timestamp: Option<int>, now: int): (r: Result<TradeData, TradeError>)
    ensures r.Ok? <==> quantity > 0.0 && price > 0.0
    ensures r.Ok? ==> r.value.status == Pending && r.value.tradeType == tradeType
                      && r.value.commission == 0.0 && r.value.fillTime == None
                      && r.value.timestamp == (if timestamp.Some? then timestamp.value else now)
    ensures r.Ok? ==> r.value.tradeId == id && r.value.symbol == symbol
                      && r.value.quantity == quantity && r.value.price == price
                      && r.value.slippage == 0.0 && r.value.realizedPnl == 0.0
                      && r.value.orderPrice == None && r.value.metadata == Some(map[])
    ensures quantity <= 0.0 ==> r == Err(NonPositiveQuantity)
    ensures quantity > 0.0 && price <= 0.0 ==> r == Err(NonPositivePrice)
  {
    Validated(TradeData(id, symbol, tradeType, quantity, price,
                        if timestamp.Some? then timestamp.value else now,
                        Pending, 0.0, 0.0, 0.0, None, None, Some(map[])))
  }

  // ---- derived values ----

  function TradeValue(t: TradeData): real { t.quantity * t.price }

  /** `total_cost`: value plus commission plus slippage cost; never below the value of a valid trade. */
  function TotalCost(t: TradeData): (r: real)
    ensures r == TradeValue(t) + t.commission + t.quantity * Abs(t.slippage)
    ensures IsValid(t) ==> r >= TradeValue(t)
  {
    var slippageCost := t.quantity * Abs(t.slippage);
    TradeValue(t) + t.commission + slippageCost
  }

  predicate IsBuy(t: TradeData) { t.tradeType == Buy }
  predicate IsSell(t: TradeData) { t.tradeType == Sell }
  predicate IsClose(t: TradeData) { t.tradeType == CloseLong || t.tradeType == CloseShort }
  predicate IsLongSide(t: TradeData) { t.tradeType == Buy || t.tradeType == CloseShort }
  predicate IsShortSide(t: TradeData) { t.tradeType == Sell || t.tradeType == CloseLong }
  predicate IsFilled(t: TradeData) { t.status == Filled }
  predicate IsPending(t: TradeData) { t.status == Pending }

  /** Every trade is on exactly one side, and is exactly one of buy, sell, close. */
  lemma SidesPartition(t: TradeData)
    ensures IsLongSide(t) != IsShortSide(t)
    ensures (IsBuy(t) || IsSell(t) || IsClose(t))
    ensures !(IsBuy(t) && IsSell(t)) && !(IsBuy(t) && IsClose(t)) && !(IsSell(t) && IsClose(t))
  {
  }

  /** `calculate_pnl`: the gain of the trade's quantity from its price to `exitPrice`, by side. */
  function CalculatePnl(t: TradeData, exitPrice: real): (r: real)
    ensures IsLongSide(t) ==> r == t.quantity * (exitPrice - t.price)
    ensures IsShortSide(t) ==> r == -(t.quantity * (exitPrice - t.price))
  {
    if IsLongSide(t) then t.quantity * (exitPrice - t.price)
    else t.quantity * (t.price - exitPrice)
  }

  /** The type with the same role on the other side. */
  function Mirror(tt: TradeType): TradeType
  {
    match tt
    case Buy => Sell
    case Sell => Buy
    case CloseLong => CloseShort
    case CloseShort => CloseLong
  }

  /** The two sides' PnL are exact negatives of each other. */
  lemma PnlMirror(t: TradeData, exitPrice: real)
    ensures CalculatePnl(t.(tradeType := Mirror(t.tradeType)), exitPrice) == -CalculatePnl(t, exitPrice)
    ensures CalculatePnl(t, t.price) == 0.0
  {
  }

  /**
   * A trade's own PnL agrees with the position's: closing part of a position
   * opened by a buy (or a sell) at the trade's price realizes what the trade
   * computes for the same quantity and exit price.
   */
  lemma TradePnlMatchesReduce(t: TradeData, p: Positions.PositionData, exitPrice: real, now: int)
    requires Positions.Inv(p) && !Positions.IsFlat(p)
    requires (t.tradeType == Buy && p.side == Positions.Long) || (t.tradeType == Sell && p.side == Positions.Short)
    requires p.avgPrice == t.price && 0.0 < t.quantity <= p.quantity
    ensures Positions.Reduce(p, t.quantity, exitPrice, now).Ok?
    ensures Positions.Reduce(p, t.quantity, exitPrice, now).value.1 == CalculatePnl(t, exitPrice)
  {
  }

  // ---- status and price updates, as written ----

  /** `fill`: status FILLED; the price is replaced only when a fill price is given; `fill_time or now()`. */
  function FillSpec(t: TradeData, fillPrice: Option<real>, fillTime: Option<int>, now: int): (r: TradeData)
    ensures r.status == Filled
    ensures r.price == (if fillPrice.Some? then fillPrice.value else t.price)
    ensures r.fillTime == Some(if fillTime.Some? then fillTime.value else now)
    ensures r.(price := t.price, fillTime := t.fillTime, status := t.status) == t
  {
    var t1 := if fillPrice.Some? then t.(price := fillPrice.value) else t;
    t1.(fillTime := Some(if fillTime.Some? then fillTime.value else now), status := Filled)
  }

  function CancelSpec(t: TradeData): (r: TradeData)
    ensures r.status == Cancelled && r.(status := t.status) == t
  {
    t.(status := Cancelled)
  }

  /**
   * `reject`: status REJECTED; a non-empty reason is written under
   * "reject_reason", which fails when the metadata is None (after the status
   * has changed).
   */
  function RejectSpec(t: TradeData, reason: string): (r: (TradeData, Option<TradeError>))
    ensures r.0.status == Rejected
    ensures r.1.Some? <==> reason != "" && t.metadata.None?
    ensures reason == "" || t.metadata.None? ==> r.0 == t.(status := Rejected)
    ensures reason != "" && t.metadata.Some? ==>
              r.0 == t.(status := Rejected, metadata := Some(t.metadata.value["reject_reason" := reason]))
  {
    var t1 := t.(status := Rejected);
    if reason == "" then (t1, None)
    else if t1.metadata.None? then (t1, Some(MetadataMissing))
    else (t1.(metadata := Some(t1.metadata.value["reject_reason" := reason])), None)
  }

  /** Filling keeps a trade valid as long as a given fill price is positive. */
  lemma FillKeepsValid(t: TradeData, fillPrice: Option<real>, fillTime: Option<int>, now: int)
    requires IsValid(t) && (fillPrice.Some? ==> fillPrice.value > 0.0)
    ensures IsValid(FillSpec(t, fillPrice, fillTime, now))
    ensures TotalCost(FillSpec(t, fillPrice, fillTime, now)) >= TradeValue(FillSpec(t, fillPrice, fillTime, now))
  {
  }

  /** No update looks at the prior status: a cancelled or rejected trade can still be filled. */
  lemma TerminalStatusOverwritten(t: TradeData, now: int)
    requires t.status == Cancelled || t.status == Rejected
    ensures FillSpec(t, None, None, now).status == Filled
    ensures CancelSpec(FillSpec(t, None, None, now)).status == Cancelled
  {
  }

  // ---- the intended lifecycle ----

  datatype Event = FillEvent(fillPrice: Option<real>, fillTime: Option<int>) | CancelEvent | RejectEvent(reason: string)

  predicate IsTerminal(s: TradeStatus) { s != Pending }

  /**
   * Status changes with a terminal-state guard: only a pending trade moves,
   * and a terminal one is reported as an invalid transition and kept as it is.
   */
  function Transition(t: TradeData, e: Event, now: int): (r: Result<TradeData, TradeStatus>)
    ensures IsTerminal(t.status) <==> r.Err?
    ensures r.Err? ==> r.error == t.status
    ensures r.Ok? ==> IsTerminal(r.value.status)
    ensures r.Ok? && e.FillEvent? ==> r.value.status == Filled
    ensures r.Ok? && e.CancelEvent? ==> r.value.status == Cancelled
    ensures r.Ok? && e.RejectEvent? ==> r.value.status == Rejected
  {
    if IsTerminal(t.status) then Err(t.status)
    else
      match e
      case FillEvent(fp, ft) => Ok(FillSpec(t, fp, ft, now))
      case CancelEvent => Ok(CancelSpec(t))
      case RejectEvent(reason) => Ok(RejectSpec(t, reason).0)
  }

  /** Applying a list of events: the first one that is refused stops the run. */
  function Run(t: TradeData, es: seq<Event>, now: int): (r: TradeData)
    decreases |es|
  {
    if es == [] then t
    else match Transition(t, es[0], now)
      case Err(_) => t
      case Ok(n) => Run(n, es[1..], now)
  }

  /** Under the guard a trade moves at most once: after any run, a terminal status is the one it first reached. */
  lemma TerminalIsFinal(t: TradeData, es: seq<Event>, now: int)
    requires IsTerminal(t.status)
    ensures Run(t, es, now) == t
  {
  }

  lemma {:induction false} RunChangesStatusOnce(t: TradeData, es: seq<Event>, now: int)
    requires t.status == Pending && es != []
    ensures Run(t, es, now) == Transition(t, es[0], now).value
  {
    var n := Transition(t, es[0], now).value;
    TerminalIsFinal(n, es[1..], now);
  }

  // ---- field maps ----

  const TradeFields: set<string> :=
    {"trade_id", "symbol", "trade_type", "quantity", "price", "timestamp", "status", "commission",
     "slippage", "realized_pnl", "order_price", "fill_time", "metadata"}

  /** `to_dict`: every stored field plus the derived value and cost. */
  function ToDict(t: TradeData): (d: FieldMap)
    ensures d.Keys == TradeFields + {"trade_value", "total_cost"}
    ensures d["trade_value"] == Num(TradeValue(t)) && d["total_cost"] == Num(TotalCost(t))
  {
    map["trade_id" := Str(t.tradeId), "symbol" := Str(t.symbol), "trade_type" := Str(TypeName(t.tradeType)),
        "quantity" := Num(t.quantity), "price" := Num(t.price), "timestamp" := Time(t.timestamp),
        "status" := Str(StatusName(t.status)), "commission" := Num(t.commission),
        "slippage" := Num(t.slippage), "realized_pnl" := Num(t.realizedPnl),
        "order_price" := OptNum(t.orderPrice), "fill_time" := OptTime(t.fillTime),
        "metadata" := OptDict(t.metadata), "trade_value" := Num(TradeValue(t)),
        "total_cost" := Num(TotalCost(t))]
  }

  function Lift<T>(r: Result<T, FieldError>): Result<T, TradeError>
  {
    match r
    case Ok(v) => Ok(v)
    case Err(e) => Err(BadField(e))
  }

  /** The metadata field: absent means a fresh empty dictionary, `Null` means None. */
  function GetMetadata(d: FieldMap): (r: Result<Option<Metadata>, FieldError>)
    ensures "metadata" !in d ==> r == Ok(Some(map[]))
  {
    if "metadata" !in d then Ok(Some(map[])) else GetOptDict(d, "metadata")
  }

  /** The identifying fields, the enumerations converted from their names. */
  function ParseHead(e: FieldMap): Result<(string, string, TradeType, real, real, int, TradeStatus), TradeError>
  {
    var id :- Lift(GetStr(e, "trade_id"));
    var sym :- Lift(GetStr(e, "symbol"));
    var typeName :- Lift(GetStr(e, "trade_type"));
    var tt :- if ParseType(typeName).Some? then Ok(ParseType(typeName).value)
              else Err(BadField(BadEnumValue("trade_type")));
    var q :- Lift(GetNum(e, "quantity"));
    var price :- Lift(GetNum(e, "price"));
    var ts :- Lift(GetTime(e, "timestamp"));
    var statusName :- Lift(GetStrOr(e, "status", StatusName(Pending)));
    var status :- if ParseStatus(statusName).Some? then Ok(ParseStatus(statusName).value)
                  else Err(BadField(BadEnumValue("status")));
    Ok((id, sym, tt, q, price, ts, status))
  }

  /** The cost and bookkeeping fields, each with its default. */
  function ParseTail(e: FieldMap): Result<(real, real, real, Option<real>, Option<int>, Option<Metadata>), TradeError>
  {
    var c :- Lift(GetNumOr(e, "commission", 0.0));
    var sl :- Lift(GetNumOr(e, "slippage", 0.0));
    var rp :- Lift(GetNumOr(e, "realized_pnl", 0.0));
    var op :- Lift(GetOptNum(e, "order_price"));
    var ft :- Lift(GetOptTime(e, "fill_time"));
    var md :- Lift(GetMetadata(e));
    Ok((c, sl, rp, op, ft, md))
  }

  /** `from_dict`: convert the enumerations, drop the derived values, bind the fields, validate. */
  function FromDict(d: FieldMap): (r: Result<TradeData, TradeError>)
    ensures r.Ok? ==> IsValid(r.value)
  {
    var e := d - {"trade_value", "total_cost"};
    if !(e.Keys <= TradeFields) then Err(BadField(UnexpectedField))
    else
      var h :- ParseHead(e);
      var t :- ParseTail(e);
      Validated(TradeData(h.0, h.1, h.2, h.3, h.4, h.5, h.6, t.0, t.1, t.2, t.3, t.4, t.5))
  }

  /** Every stored field of a valid trade survives a trip through its field map. */
  lemma RoundTrip(t: TradeData)
    requires IsValid(t)
    ensures FromDict(ToDict(t)) == Ok(t)
  {
    var e := ToDict(t) - {"trade_value", "total_cost"};
    StoredFields(t, e);
    HeadRoundTrip(t, e);
    TailRoundTrip(t, e);
  }

  /** What the field map holds once the derived values are dropped. */
  predicate Holds(t: TradeData, e: FieldMap)
  {
    && e.Keys == TradeFields
    && e["trade_id"] == Str(t.tradeId) && e["symbol"] == Str(t.symbol)
    && e["trade_type"] == Str(TypeName(t.tradeType)) && HoldsReal(e["quantity"], t.quantity)
    && HoldsReal(e["price"], t.price) && e["timestamp"] == Time(t.timestamp)
    && e["status"] == Str(StatusName(t.status))
    && HoldsTail(t, e)
  }

  /** A stored number, of either kind, whose value is `x`. */
  predicate HoldsReal(v: Value, x: real) { IsReal(v) && RealOf(v) == x }

  predicate HoldsTail(t: TradeData, e: FieldMap)
  {
    && e.Keys == TradeFields
    && HoldsReal(e["commission"], t.commission)
    && e["slippage"] == Num(t.slippage) && e["realized_pnl"] == Num(t.realizedPnl)
    && e["order_price"] == OptNum(t.orderPrice) && e["fill_time"] == OptTime(t.fillTime)
    && e["metadata"] == OptDict(t.metadata)
  }

  /** Integer quantity, price and commission, which `cls(**data)` stores as given, build the same trade. */
  lemma IntegerAmountsAccepted(t: TradeData, q: int, p: int, c: int)
    requires IsValid(t) && t.quantity == q as real && t.price == p as real && t.commission == c as real
    ensures FromDict(ToDict(t)["quantity" := Int(q)]["price" := Int(p)]["commission" := Int(c)]) == Ok(t)
  {
    var e0 := ToDict(t) - {"trade_value", "total_cost"};
    var e := ToDict(t)["quantity" := Int(q)]["price" := Int(p)]["commission" := Int(c)] - {"trade_value", "total_cost"};
    assert e == e0["quantity" := Int(q)]["price" := Int(p)]["commission" := Int(c)];
    StoredFields(t, e0);
    HoldsWithIntegers(t, e0, q, p, c);
    HeadRoundTrip(t, e);
    TailRoundTrip(t, e);
  }

  lemma HoldsWithIntegers(t: TradeData, e0: FieldMap, q: int, p: int, c: int)
    requires Holds(t, e0) && t.quantity == q as real && t.price == p as real && t.commission == c as real
    ensures Holds(t, e0["quantity" := Int(q)]["price" := Int(p)]["commission" := Int(c)])
  {
  }

  lemma StoredFields(t: TradeData, e: FieldMap)
    requires e == ToDict(t) - {"trade_value", "total_cost"}
    ensures Holds(t, e)
  {
    StoredTail(t, e);
  }

  lemma StoredTail(t: TradeData, e: FieldMap)
    requires e == ToDict(t) - {"trade_value", "total_cost"}
    ensures HoldsTail(t, e)
  {
  }

  lemma HeadRoundTrip(t: TradeData, e: FieldMap)
    requires Holds(t, e)
    ensures ParseHead(e) == Ok((t.tradeId, t.symbol, t.tradeType, t.quantity, t.price, t.timestamp, t.status))
  {
    NamesParse(t.tradeType, t.status);
  }

  lemma TailRoundTrip(t: TradeData, e: FieldMap)
    requires HoldsTail(t, e)
    ensures ParseTail(e) == Ok((t.commission, t.slippage, t.realizedPnl, t.orderPrice, t.fillTime, t.metadata))
  {
  }

  /** A trade record, updated in place. */
  class Trade {
    var tradeId: string
    var symbol: string
    var tradeType: TradeType
    var quantity: real
    var price: real
    var timestamp: int
    var status: TradeStatus
    var commission: real
    var slippage: real
    var realizedPnl: real
    var orderPrice: Option<real>
    var fillTime: Option<int>
    var metadata: Option<Metadata>

    function Data(): TradeData
      reads this
    {
      TradeData(tradeId, symbol, tradeType, quantity, price, timestamp, status, commission,
                slippage, realizedPnl, orderPrice, fillTime, metadata)
    }

    /** `Trade(...)`: only field values that pass the constructor's checks. */
    constructor (t: TradeData)
      requires Validated(t).Ok?
      ensures Data() == t && IsValid(t)
    {
      tradeId, symbol, tradeType, quantity, price := t.tradeId, t.symbol, t.tradeType, t.quantity, t.price;
      timestamp, status, commission, slippage := t.timestamp, t.status, t.commission, t.slippage;
      realizedPnl, orderPrice, fillTime, metadata := t.realizedPnl, t.orderPrice, t.fillTime, t.metadata;
    }

    method Fill(fillPrice: Option<real>, fillTimeArg: Option<int>, now: int)
      modifies this
      ensures Data() == FillSpec(old(Data()), fillPrice, fillTimeArg, now)
    {
      if fillPrice.Some? {
        price := fillPrice.value;
      }
      fillTime := Some(if fillTimeArg.Some? then fillTimeArg.value else now);
      status := Filled;
    }

    method Cancel()
      modifies this
      ensures Data() == CancelSpec(old(Data()))
    {
      status := Cancelled;
    }

    method Reject(reason: string) returns (err: Option<TradeError>)
      modifies this
      ensures (Data(), err) == RejectSpec(old(Data()), reason)
    {
      status := Rejected;
      err := None;
      if reason != "" {
        if metadata.None? {
          return Some(MetadataMissing);
        }
        metadata := Some(metadata.value["reject_reason" := reason]);
      }
    }
  }
}
