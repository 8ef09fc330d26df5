/**
 * Per-symbol position accounting (strategy/position.py, class Position).
 *
 * The fields of a position are gathered in the value `PositionData`; each
 * operation of the source is first stated as a pure transition on that value
 * (`Add`, `Reduce`, `Close`, `Reverse`, `Mark`), and the class `Position`
 * updates its fields in place with methods proved against those transitions.
 * Quantities and prices are reals; rounding is not modelled.
 */
module Positions {
  import opened Common

  datatype Side = Long | Short | Flat

  function SideName(s: Side): string
  {
    match s
    case Long => "long"
    case Short => "short"
    case Flat => "flat"
  }

  /** `PositionSide(value)`. */
  function ParseSide(s: string): (r: Option<Side>)
    ensures r.Some? ==> SideName(r.value) == s
  {
    if s == "long" then Some(Long)
    else if s == "short" then Some(Short)
    else if s == "flat" then Some(Flat)
    else None
  }

  /** +1 for a long, -1 for a short, 0 for a flat position. */
  function SideSign(s: Side): real
  {
    match s
    case Long => 1.0
    case Short => -1.0
    case Flat => 0.0
  }

  datatype PositionData = PositionData(
    symbol: string,
    side: Side,
    quantity: real,        // absolute size
    avgPrice: real,        // weighted-average cost
    currentPrice: real,
    timestamp: int,        // caller-supplied instant of the last update
    unrealizedPnl: real,
    realizedPnl: real)

  datatype PositionError =
    | NonPositiveAdd           // add_position with quantity <= 0
    | NonPositiveReduce        // reduce_position with quantity <= 0
    | ReduceExceedsQuantity    // reduce_position with more than is held
    | NegativeQuantity         // construction checks, in order
    | NonPositiveAvgPrice
    | NonPositiveCurrentPrice
    | BadField(f: FieldError)

  /** The invariant every operation of this model keeps: a size is never negative. */
  predicate Inv(p: PositionData) { p.quantity >= 0.0 }

  // ---- construction ----

  /** The constructor's checks (`__post_init__`), in order. */
  function Validated(p: PositionData): (r: Result<PositionData, PositionError>)
    ensures r.Ok? <==> p.quantity >= 0.0 && p.avgPrice > 0.0 && p.currentPrice > 0.0
    ensures r.Ok? ==> r.value == p && Inv(p)
    ensures p.quantity < 0.0 ==> r == Err(NegativeQuantity)
  {
    if p.quantity < 0.0 then Err(NegativeQuantity)
    else if p.avgPrice <= 0.0 then Err(NonPositiveAvgPrice)
    else if p.currentPrice <= 0.0 then Err(NonPositiveCurrentPrice)
    else Ok(p)
  }

  /** `create_long_position`: a validated long position opened at `price`. */
  function LongPosition(symbol: string, quantity: real, price: real, now: int): (r: Result<PositionData, PositionError>)
    ensures r.Ok? <==> quantity >= 0.0 && price > 0.0
    ensures r.Ok? ==> r.value.side == Long && r.value.quantity == quantity && r.value.avgPrice == price
                      && r.value.unrealizedPnl == 0.0 && r.value.realizedPnl == 0.0
  {
    Validated(PositionData(symbol, Long, quantity, price, price, now, 0.0, 0.0))
  }

  /** `create_short_position`: a validated short position opened at `price`. */
  function ShortPosition(symbol: string, quantity: real, price: real, now: int): (r: Result<PositionData, PositionError>)
    ensures r.Ok? <==> quantity >= 0.0 && price > 0.0
    ensures r.Ok? ==> r.value.side == Short && r.value.quantity == quantity && r.value.avgPrice == price
                      && r.value.unrealizedPnl == 0.0 && r.value.realizedPnl == 0.0
  {
    Validated(PositionData(symbol, Short, quantity, price, price, now, 0.0, 0.0))
  }

  /** `create_flat_position` as written: zero prices run through the constructor's checks. */
  function FlatPositionAsWritten(symbol: string, now: int): Result<PositionData, PositionError>
  {
    Validated(PositionData(symbol, Flat, 0.0, 0.0, 0.0, now, 0.0, 0.0))
  }

  /** The factory as written can never succeed: the zero average price is rejected. */
  lemma FlatFactoryAlwaysRejected(symbol: string, now: int)
    ensures FlatPositionAsWritten(symbol, now) == Err(NonPositiveAvgPrice)
  {
  }

  /** The flat position the factory is meant to build: nothing held, nothing earned. */
  function FlatPosition(symbol: string, now: int): (p: PositionData)
    ensures Inv(p) && IsFlat(p) && p.symbol == symbol
    ensures MarketValue(p) == 0.0 && CostValue(p) == 0.0
    ensures p.unrealizedPnl == 0.0 && p.realizedPnl == 0.0
  {
    PositionData(symbol, Flat, 0.0, 0.0, 0.0, now, 0.0, 0.0)
  }

  // ---- derived properties ----

  predicate IsLong(p: PositionData) { p.side == Long && p.quantity > 0.0 }
  predicate IsShort(p: PositionData) { p.side == Short && p.quantity > 0.0 }
  predicate IsFlat(p: PositionData) { p.side == Flat || p.quantity == 0.0 }

  /** Under the invariant a position is exactly one of long, short, flat. */
  lemma ExactlyOneState(p: PositionData)
    requires Inv(p)
    ensures IsLong(p) || IsShort(p) || IsFlat(p)
    ensures !(IsLong(p) && IsShort(p)) && !(IsLong(p) && IsFlat(p)) && !(IsShort(p) && IsFlat(p))
  {
  }

  function MarketValue(p: PositionData): real { p.quantity * p.currentPrice }
  function CostValue(p: PositionData): real { p.quantity * p.avgPrice }

  /** The price `calculate_unrealized_pnl` uses: `current_price or self.current_price` (0 counts as absent). */
  function PriceOr(price: Option<real>, p: PositionData): real
  {
    if price.Some? && price.value != 0.0 then price.value else p.currentPrice
  }

  /**
   * `calculate_unrealized_pnl`: zero when flat, otherwise the signed gain of the
   * held quantity from the average price to the chosen price.
   */
  function UnrealizedPnl(p: PositionData, price: Option<real>): (r: real)
    ensures IsFlat(p) ==> r == 0.0
    ensures Inv(p) ==> r == SideSign(p.side) * p.quantity * (PriceOr(price, p) - p.avgPrice)
  {
    var x := PriceOr(price, p);
    if IsFlat(p) then 0.0
    else if IsLong(p) then p.quantity * (x - p.avgPrice)
    else p.quantity * -(x - p.avgPrice)
  }

  // ---- transitions ----

  /** `update_price`: mark to `price`; holdings and realized PnL are untouched. */
  function Mark(p: PositionData, price: real, now: int): (r: PositionData)
    ensures r.side == p.side && r.quantity == p.quantity && r.avgPrice == p.avgPrice
    ensures r.realizedPnl == p.realizedPnl && r.symbol == p.symbol
    ensures r.currentPrice == price && r.timestamp == now
    ensures Inv(p) ==> r.unrealizedPnl == SideSign(p.side) * p.quantity * (price - p.avgPrice)
  {
    var q := p.(currentPrice := price);
    q.(unrealizedPnl := UnrealizedPnl(q, None), timestamp := now)
  }

  /** Marking twice at the same price is marking once: unrealized PnL is recomputed, not accumulated. */
  lemma MarkIdempotent(p: PositionData, price: real, now: int)
    ensures Mark(Mark(p, price, now), price, now) == Mark(p, price, now)
  {
  }

  /**
   * `add_position`: a flat position takes the new size and price as they are (its
   * side is left as it was); an open one averages its cost.
   */
  function Add(p: PositionData, quantity: real, price: real, now: int): (r: Result<PositionData, PositionError>)
    requires Inv(p)
    ensures quantity <= 0.0 <==> r.Err?
    ensures r.Err? ==> r.error == NonPositiveAdd
    ensures r.Ok? ==> r.value.side == p.side && r.value.realizedPnl == p.realizedPnl
                      && r.value.unrealizedPnl == p.unrealizedPnl && r.value.currentPrice == p.currentPrice
                      && r.value.symbol == p.symbol && r.value.timestamp == now
    ensures r.Ok? && IsFlat(p) ==> r.value.quantity == quantity && r.value.avgPrice == price
    ensures r.Ok? && !IsFlat(p) ==>
              r.value.quantity == p.quantity + quantity
              && r.value.quantity * r.value.avgPrice == p.quantity * p.avgPrice + quantity * price
    ensures r.Ok? ==> Inv(r.value)
  {
    if quantity <= 0.0 then Err(NonPositiveAdd)
    else if IsFlat(p) then Ok(p.(quantity := quantity, avgPrice := price, timestamp := now))
    else
      var totalCost := CostValue(p) + quantity * price;
      var newQuantity := p.quantity + quantity;
      Ok(p.(quantity := newQuantity, avgPrice := totalCost / newQuantity, timestamp := now))
  }

  /**
   * `reduce_position`: realize the PnL of `quantity` units at `price` (long gains
   * when the price is above cost, anything else gains when it is below), keep the
   * average price, and go flat when nothing is left.
   */
  function Reduce(p: PositionData, quantity: real, price: real, now: int): (r: Result<(PositionData, real), PositionError>)
    ensures quantity <= 0.0 ==> r == Err(NonPositiveReduce)
    ensures quantity > 0.0 && quantity > p.quantity ==> r == Err(ReduceExceedsQuantity)
    ensures r.Ok? <==> 0.0 < quantity <= p.quantity
    ensures r.Ok? ==>
              var (n, pnl) := r.value;
              && pnl == (if IsLong(p) then quantity * (price - p.avgPrice) else quantity * (p.avgPrice - price))
              && n.realizedPnl == p.realizedPnl + pnl
              && n.quantity == p.quantity - quantity
              && n.avgPrice == p.avgPrice && n.currentPrice == p.currentPrice
              && n.unrealizedPnl == p.unrealizedPnl && n.symbol == p.symbol && n.timestamp == now
              && (n.side == Flat <==> n.quantity == 0.0 || p.side == Flat)
              && (n.quantity != 0.0 ==> n.side == p.side)
              && Inv(n)
  {
    if quantity <= 0.0 then Err(NonPositiveReduce)
    else if quantity > p.quantity then Err(ReduceExceedsQuantity)
    else
      var diff := price - p.avgPrice;
      var pnl := if IsLong(p) then quantity * diff else quantity * -diff;
      var rest := p.quantity - quantity;
      var n := p.(realizedPnl := p.realizedPnl + pnl, quantity := rest,
                  side := if rest == 0.0 then Flat else p.side, timestamp := now);
      Ok((n, pnl))
  }

  /** On an open position the realized PnL is the signed gain of the reduced units. */
  lemma ReducePnlBySide(p: PositionData, quantity: real, price: real, now: int)
    requires Inv(p) && !IsFlat(p) && 0.0 < quantity <= p.quantity
    ensures Reduce(p, quantity, price, now).Ok?
    ensures Reduce(p, quantity, price, now).value.1 == SideSign(p.side) * quantity * (price - p.avgPrice)
  {
  }

  /** `close_position`: nothing happens to a flat position; an open one is reduced by all it holds. */
  function Close(p: PositionData, price: real, now: int): (r: (PositionData, real))
    requires Inv(p)
    ensures IsFlat(p) ==> r == (p, 0.0)
    ensures !IsFlat(p) ==>
              && r.0.quantity == 0.0 && r.0.side == Flat
              && r.1 == SideSign(p.side) * p.quantity * (price - p.avgPrice)
              && r.0.realizedPnl == p.realizedPnl + r.1
              && r.0.avgPrice == p.avgPrice && r.0.currentPrice == p.currentPrice
              && r.0.unrealizedPnl == p.unrealizedPnl && r.0.timestamp == now
    ensures IsFlat(r.0) && Inv(r.0) && r.0.symbol == p.symbol
  {
    if IsFlat(p) then (p, 0.0)
    else Reduce(p, p.quantity, price, now).value
  }

  /**
   * `reverse_position` as written: close, then for a positive size open at
   * `price` on the side opposite to the side read AFTER the close.
   */
  function Reverse(p: PositionData, newQuantity: real, price: real, now: int): (r: (PositionData, real))
    requires Inv(p)
    ensures r.1 == (if IsFlat(p) then 0.0 else SideSign(p.side) * p.quantity * (price - p.avgPrice))
    ensures r.0.realizedPnl == p.realizedPnl + r.1
    ensures newQuantity > 0.0 ==> r.0.quantity == newQuantity && r.0.avgPrice == price && r.0.side != Flat
    ensures newQuantity <= 0.0 ==> r.0 == Close(p, price, now).0
    ensures Inv(r.0)
  {
    var (closed, pnl) := Close(p, price, now);
    if newQuantity > 0.0 then
      (closed.(quantity := newQuantity, avgPrice := price,
               side := if closed.side == Long then Short else Long, timestamp := now), pnl)
    else (closed, pnl)
  }

  /** Because the side is read after the close has made it FLAT, an open position always reverses to LONG. */
  lemma ReverseAlwaysLong(p: PositionData, newQuantity: real, price: real, now: int)
    requires Inv(p) && !IsFlat(p) && newQuantity > 0.0
    ensures Reverse(p, newQuantity, price, now).0.side == Long
  {
  }

  function Opposite(s: Side): Side
  {
    match s
    case Long => Short
    case Short => Long
    case Flat => Flat
  }

  /** The intended reversal: the new exposure is on the side opposite to the old one. */
  function ReverseFlipped(p: PositionData, newQuantity: real, price: real, now: int): (r: (PositionData, real))
    requires Inv(p)
    ensures r.1 == Reverse(p, newQuantity, price, now).1
    ensures !IsFlat(p) && newQuantity > 0.0 ==>
              r.0.side == Opposite(p.side) && r.0.side != p.side && r.0.side != Flat
              && r.0.quantity == newQuantity && r.0.avgPrice == price
    ensures Inv(r.0)
  {
    var (closed, pnl) := Close(p, price, now);
    if newQuantity > 0.0 && !IsFlat(p) then
      (closed.(quantity := newQuantity, avgPrice := price, side := Opposite(p.side), timestamp := now), pnl)
    else Reverse(p, newQuantity, price, now)
  }

  // ---- runs of additions ----

  /** A sequence of fills (quantity, price). */
  type Fills = seq<(real, real)>

  function FillQuantity(fills: Fills): real
  {
    if fills == [] then 0.0 else fills[0].0 + FillQuantity(fills[1..])
  }

  function FillCost(fills: Fills): real
  {
    if fills == [] then 0.0 else fills[0].0 * fills[0].1 + FillCost(fills[1..])
  }

  predicate AllPositive(fills: Fills)
  {
    forall i :: 0 <= i < |fills| ==> fills[i].0 > 0.0
  }

  /** `add_position` applied to each fill in turn, stopping at the first error. */
  function AddAll(p: PositionData, fills: Fills, now: int): Result<PositionData, PositionError>
    requires Inv(p)
    decreases |fills|
  {
    if fills == [] then Ok(p)
    else
      match Add(p, fills[0].0, fills[0].1, now)
      case Err(e) => Err(e)
      case Ok(n) => AddAll(n, fills[1..], now)
  }

  /**
   * A run of additions on a position with an open side keeps the weighted-average
   * cost: the size grows by the total added and size * average price grows by the
   * total cost of the fills.
   */
  lemma {:induction false} AddRunWeightedAverage(p: PositionData, fills: Fills, now: int)
    requires Inv(p) && p.side != Flat && AllPositive(fills)
    ensures AddAll(p, fills, now).Ok?
    ensures AddAll(p, fills, now).value.quantity == p.quantity + FillQuantity(fills)
    ensures CostValue(AddAll(p, fills, now).value) == CostValue(p) + FillCost(fills)
    ensures AddAll(p, fills, now).value.side == p.side
    decreases |fills|
  {
    if fills != [] {
      var n := AddFirst(p, fills, now);
      AddRunWeightedAverage(n, fills[1..], now);
    }
  }

  /** The first step of a run: `n` is the position after the first fill. */
  lemma AddFirst(p: PositionData, fills: Fills, now: int) returns (n: PositionData)
    requires Inv(p) && p.side != Flat && AllPositive(fills) && fills != []
    ensures Inv(n) && n.side == p.side && AllPositive(fills[1..])
    ensures AddAll(p, fills, now) == AddAll(n, fills[1..], now)
    ensures n.quantity == p.quantity + fills[0].0
    ensures CostValue(n) == CostValue(p) + fills[0].0 * fills[0].1
    ensures FillQuantity(fills) == fills[0].0 + FillQuantity(fills[1..])
    ensures FillCost(fills) == fills[0].0 * fills[0].1 + FillCost(fills[1..])
  {
    AddOnOpenSide(p, fills[0].0, fills[0].1, now);
    n := Add(p, fills[0].0, fills[0].1, now).value;
    forall i | 0 <= i < |fills[1..]| ensures fills[1..][i].0 > 0.0 {
      assert fills[1..][i] == fills[i + 1];
    }
  }

  /** One addition on a chosen side: size and cost both grow by the fill's. */
  lemma AddOnOpenSide(p: PositionData, q: real, x: real, now: int)
    requires Inv(p) && p.side != Flat && q > 0.0
    ensures Add(p, q, x, now).Ok?
    ensures Add(p, q, x, now).value.quantity == p.quantity + q
    ensures CostValue(Add(p, q, x, now).value) == CostValue(p) + q * x
    ensures Add(p, q, x, now).value.side == p.side
  {
    if p.quantity == 0.0 {
      assert CostValue(p) == 0.0;
    }
  }

  /** Opening from zero size on a chosen side: the average price is sum(q*p) / sum(q). */
  lemma AddRunFromZero(p: PositionData, fills: Fills, now: int)
    requires p.quantity == 0.0 && p.side != Flat && AllPositive(fills) && fills != []
    ensures AddAll(p, fills, now).Ok?
    ensures AddAll(p, fills, now).value.quantity == FillQuantity(fills) > 0.0
    ensures AddAll(p, fills, now).value.avgPrice == FillCost(fills) / FillQuantity(fills)
  {
    AddRunWeightedAverage(p, fills, now);
    PositiveTotal(fills);
    var r := AddAll(p, fills, now).value;
    assert CostValue(p) == 0.0;
    QuotientOfProduct(r.quantity, r.avgPrice, FillCost(fills));
  }

  lemma QuotientOfProduct(a: real, b: real, c: real)
    requires a != 0.0 && a * b == c
    ensures b == c / a
  {
  }

  lemma {:induction false} PositiveTotal(fills: Fills)
    requires AllPositive(fills) && fills != []
    ensures FillQuantity(fills) > 0.0
    decreases |fills|
  {
    if |fills| > 1 {
      assert AllPositive(fills[1..]) by {
        forall i | 0 <= i < |fills[1..]| ensures fills[1..][i].0 > 0.0 {
          assert fills[1..][i] == fills[i + 1];
        }
      }
      PositiveTotal(fills[1..]);
    }
  }

  /**
   * On a position whose side is FLAT, `add_position` never sets a side, so the
   * position still counts as flat and a second addition overwrites the first.
   */
  lemma AddOnFlatSideOverwrites(p: PositionData, q1: real, x1: real, q2: real, x2: real, now: int)
    requires Inv(p) && p.side == Flat && q1 > 0.0 && q2 > 0.0
    ensures AddAll(p, [(q1, x1), (q2, x2)], now).Ok?
    ensures var r := AddAll(p, [(q1, x1), (q2, x2)], now).value;
            r.side == Flat && IsFlat(r) && r.quantity == q2 && r.avgPrice == x2
  {
    var fills := [(q1, x1), (q2, x2)];
    var a1 := Add(p, q1, x1, now).value;
    assert fills[1..] == [(q2, x2)] && fills[1..][1..] == [];
    assert AddAll(p, fills, now) == AddAll(a1, [(q2, x2)], now);
  }

  /**
   * Reducing part of an open position and adding the same amount back at the same
   * price restores the size; the average price comes back only when that price was
   * the average price itself.
   */
  lemma ReduceThenAdd(p: PositionData, quantity: real, price: real, now: int)
    requires Inv(p) && !IsFlat(p) && 0.0 < quantity < p.quantity
    ensures Reduce(p, quantity, price, now).Ok?
    ensures var n := Reduce(p, quantity, price, now).value.0;
            && Add(n, quantity, price, now).Ok?
            && Add(n, quantity, price, now).value.quantity == p.quantity
            && (Add(n, quantity, price, now).value.avgPrice == p.avgPrice <==> price == p.avgPrice)
  {
    var n := Reduce(p, quantity, price, now).value.0;
    var a := Add(n, quantity, price, now).value;
    assert !IsFlat(n);
    assert a.quantity == p.quantity;
    assert a.quantity * a.avgPrice == (p.quantity - quantity) * p.avgPrice + quantity * price;
    if a.avgPrice == p.avgPrice {
      assert quantity * price == quantity * p.avgPrice;
      CancelFactor(quantity, price, p.avgPrice);
    }
  }

  lemma CancelFactor(k: real, x: real, y: real)
    requires k != 0.0 && k * x == k * y
    ensures x == y
  {
  }

  /** A worked example, for a position opened LONG with zero size. */
  lemma OpenAddReduceExample(now: int)
    ensures var p := PositionData("IF2306", Long, 0.0, 0.0, 0.0, now, 0.0, 0.0);
            var a1 := Add(p, 5.0, 4000.0, now).value;
            var a2 := Add(a1, 5.0, 4100.0, now).value;
            var r := Reduce(a2, 4.0, 4200.0, now).value;
            && a1.quantity == 5.0 && a1.avgPrice == 4000.0
            && a2.quantity == 10.0 && a2.avgPrice == 4050.0
            && r.1 == 600.0 && r.0.quantity == 6.0 && r.0.avgPrice == 4050.0
  {
  }

  /** The reversal example: PnL 100 is realized, but the result is LONG, not SHORT. */
  lemma ReverseExample(now: int)
    ensures var p := PositionData("IF2306", Long, 10.0, 100.0, 100.0, now, 0.0, 0.0);
            var r := Reverse(p, 8.0, 110.0, now);
            r.1 == 100.0 && r.0.quantity == 8.0 && r.0.avgPrice == 110.0 && r.0.side == Long
  {
  }

  // ---- field maps ----

  const PositionFields: set<string> :=
    {"symbol", "side", "quantity", "avg_price", "current_price", "timestamp",
     "unrealized_pnl", "realized_pnl"}

  /** `to_dict`: the stored fields plus the derived market and cost values. */
  function ToDict(p: PositionData): (d: FieldMap)
    ensures d.Keys == PositionFields + {"market_value", "cost_value"}
    ensures d["market_value"] == Num(MarketValue(p)) && d["cost_value"] == Num(CostValue(p))
  {
    map["symbol" := Str(p.symbol), "side" := Str(SideName(p.side)), "quantity" := Num(p.quantity),
        "avg_price" := Num(p.avgPrice), "current_price" := Num(p.currentPrice),
        "timestamp" := Time(p.timestamp), "unrealized_pnl" := Num(p.unrealizedPnl),
        "realized_pnl" := Num(p.realizedPnl), "market_value" := Num(MarketValue(p)),
        "cost_value" := Num(CostValue(p))]
  }

  function Lift<T>(r: Result<T, FieldError>): Result<T, PositionError>
  {
    match r
    case Ok(v) => Ok(v)
    case Err(e) => Err(BadField(e))
  }

  /** `from_dict`: convert the side, drop the derived values, bind the fields, validate. */
  function FromDict(d: FieldMap): (r: Result<PositionData, PositionError>)
    ensures r.Ok? ==> Inv(r.value) && r.value.avgPrice > 0.0 && r.value.currentPrice > 0.0
  {
    var e := d - {"market_value", "cost_value"};
    if !(e.Keys <= PositionFields) then Err(BadField(UnexpectedField))
    else
      var sym :- Lift(GetStr(e, "symbol"));
      var name :- Lift(GetStr(e, "side"));
      var side :- if ParseSide(name).Some? then Ok(ParseSide(name).value)
                  else Err(BadField(BadEnumValue("side")));
      var q :- Lift(GetNum(e, "quantity"));
      var avg :- Lift(GetNum(e, "avg_price"));
      var cur :- Lift(GetNum(e, "current_price"));
      var ts :- Lift(GetTime(e, "timestamp"));
      var u :- Lift(GetNumOr(e, "unrealized_pnl", 0.0));
      var rp :- Lift(GetNumOr(e, "realized_pnl", 0.0));
      Validated(PositionData(sym, side, q, avg, cur, ts, u, rp))
  }

  /** A position that passes the constructor's checks survives a trip through its field map. */
  lemma RoundTrip(p: PositionData)
    requires Validated(p).Ok?
    ensures FromDict(ToDict(p)) == Ok(p)
  {
    var e := ToDict(p) - {"market_value", "cost_value"};
    assert e.Keys == PositionFields;
    assert ParseSide(SideName(p.side)) == Some(p.side) by {
      match p.side
      case Long =>
      case Short =>
      case Flat =>
    }
  }

  /** Integer quantity and prices, which `cls(**data)` stores as given, build the same position. */
  lemma IntegerAmountsAccepted(p: PositionData, q: int, avg: int, cur: int)
    requires Validated(p).Ok?
    requires p.quantity == q as real && p.avgPrice == avg as real && p.currentPrice == cur as real
    ensures FromDict(ToDict(p)["quantity" := Int(q)]["avg_price" := Int(avg)]["current_price" := Int(cur)]) == Ok(p)
  {
    var e := ToDict(p)["quantity" := Int(q)]["avg_price" := Int(avg)]["current_price" := Int(cur)]
             - {"market_value", "cost_value"};
    assert e.Keys == PositionFields;
    assert ParseSide(SideName(p.side)) == Some(p.side) by {
      match p.side
      case Long =>
      case Short =>
      case Flat =>
    }
  }

  /** A flat position (zero prices) cannot come back through its own field map. */
  lemma FlatDoesNotRoundTrip(symbol: string, now: int)
    ensures FromDict(ToDict(FlatPosition(symbol, now))) == Err(NonPositiveAvgPrice)
  {
    var e := ToDict(FlatPosition(symbol, now)) - {"market_value", "cost_value"};
    assert e.Keys == PositionFields;
  }

  /** A position object: the fields of `PositionData`, updated in place. */
  class Position {
    var symbol: string
    var side: Side
    var quantity: real
    var avgPrice: real
    var currentPrice: real
    var timestamp: int
    var unrealizedPnl: real
    var realizedPnl: real

    function Data(): PositionData
      reads this
    {
      PositionData(symbol, side, quantity, avgPrice, currentPrice, timestamp, unrealizedPnl, realizedPnl)
    }

    /**
     * `Position(...)`: only field values that pass the constructor's checks, or the
     * zero-valued flat position the manager registers (see `FlatFactoryAlwaysRejected`).
     */
    constructor (d: PositionData)
      requires Validated(d).Ok? || d == FlatPosition(d.symbol, d.timestamp)
      ensures Data() == d && Inv(d)
    {
      symbol, side, quantity, avgPrice := d.symbol, d.side, d.quantity, d.avgPrice;
      currentPrice, timestamp, unrealizedPnl, realizedPnl := d.currentPrice, d.timestamp, d.unrealizedPnl, d.realizedPnl;
    }

    /** `calculate_unrealized_pnl` on the object's fields. */
    function CalculateUnrealizedPnl(price: Option<real>): real
      reads this
    {
      UnrealizedPnl(Data(), price)
    }

    method UpdatePrice(newPrice: real, now: int)
      modifies this
      ensures Data() == Mark(old(Data()), newPrice, now)
    {
      currentPrice := newPrice;
      unrealizedPnl := CalculateUnrealizedPnl(None);
      timestamp := now;
    }

    /** Raises (returns the error) before any field changes when `q <= 0`. */
    method AddPosition(q: real, price: real, now: int) returns (err: Option<PositionError>)
      requires Inv(Data())
      modifies this
      ensures Add(old(Data()), q, price, now).Ok? ==> err.None? && Data() == Add(old(Data()), q, price, now).value
      ensures Add(old(Data()), q, price, now).Err? ==> err == Some(NonPositiveAdd) && Data() == old(Data())
    {
      if q <= 0.0 {
        return Some(NonPositiveAdd);
      }
      if IsFlat(Data()) {
        quantity := q;
        avgPrice := price;
      } else {
        var totalCost := CostValue(Data()) + q * price;
        quantity := quantity + q;
        avgPrice := totalCost / quantity;
      }
      timestamp := now;
      return None;
    }

    /** Raises before any field changes when `q <= 0` or `q` exceeds the size held. */
    method ReducePosition(q: real, price: real, now: int) returns (r: Result<real, PositionError>)
      modifies this
      ensures Reduce(old(Data()), q, price, now).Ok? ==>
                r == Ok(Reduce(old(Data()), q, price, now).value.1)
                && Data() == Reduce(old(Data()), q, price, now).value.0
      ensures Reduce(old(Data()), q, price, now).Err? ==>
                r == Err(Reduce(old(Data()), q, price, now).error) && Data() == old(Data())
    {
      if q <= 0.0 {
        return Err(NonPositiveReduce);
      }
      if q > quantity {
        return Err(ReduceExceedsQuantity);
      }
      var diff := price - avgPrice;
      var pnl := if IsLong(Data()) then q * diff else q * -diff;
      assert pnl == Reduce(old(Data()), q, price, now).value.1;
      realizedPnl := realizedPnl + pnl;
      quantity := quantity - q;
      if quantity == 0.0 {
        side := Flat;
      }
      timestamp := now;
      return Ok(pnl);
    }

    method ClosePosition(price: real, now: int) returns (pnl: real)
      requires Inv(Data())
      modifies this
      ensures (Data(), pnl) == Close(old(Data()), price, now)
    {
      if IsFlat(Data()) {
        return 0.0;
      }
      var r := ReducePosition(quantity, price, now);
      pnl := r.value;
    }

    method ReversePosition(newQuantity: real, price: real, now: int) returns (pnl: real)
      requires Inv(Data())
      modifies this
      ensures (Data(), pnl) == Reverse(old(Data()), newQuantity, price, now)
    {
      pnl := ClosePosition(price, now);
      if newQuantity > 0.0 {
        quantity := newQuantity;
        avgPrice := price;
        side := if side == Long then Short else Long;
        timestamp := now;
      }
    }
  }
}
