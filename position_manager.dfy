/**
 * The position registry (strategy/position.py, class PositionManager): one
 * position object per symbol, created lazily, updated by the dispatch of
 * `update_position`, marked to market in batch, and summarised by totals.
 *
 * The dictionary of the source is the map `positions` together with
 * `symbols`, the order in which its keys were inserted (the order the totals
 * are summed in).
 */
module PositionManagers {
  import opened Common
  import opened Positions

  /** The requested side is the opposite of an open position's side. */
  predicate Opposed(p: PositionData, side: Side)
  {
    (side == Long && IsShort(p)) || (side == Short && IsLong(p))
  }

  /**
   * `update_position` as written, on the value of the position: close for FLAT,
   * reverse an opposed position, otherwise set the side first and then either
   * open a flat position at the target or add the difference; finally mark to
   * `price`. When `add_position` raises, the side has already been overwritten
   * and the price is not marked.
   */
  function Target(p: PositionData, side: Side, quantity: real, price: real, now: int): (r: (PositionData, Option<PositionError>))
    requires Inv(p) && quantity >= 0.0
    ensures Inv(r.0) && r.0.symbol == p.symbol
    ensures side == Flat ==> r.1.None? && IsFlat(r.0)
    ensures r.1.Some? <==> side != Flat && !Opposed(p, side) && !IsFlat(p.(side := side)) && quantity <= p.quantity
    ensures r.1.Some? ==> r.1 == Some(NonPositiveAdd) && r.0 == p.(side := side)
    ensures r.1.None? ==>
              r.0.currentPrice == price && r.0.timestamp == now
              && r.0.unrealizedPnl == SideSign(r.0.side) * r.0.quantity * (price - r.0.avgPrice)
    ensures side != Flat && r.1.None? ==> r.0.quantity == quantity
    ensures side != Flat && !Opposed(p, side) && r.1.None? && quantity > 0.0 ==> r.0.side == side
    ensures Opposed(p, side) && quantity > 0.0 ==> r.0.side == Long
  {
    if side == Flat then (Mark(Close(p, price, now).0, price, now), None)
    else if Opposed(p, side) then (Mark(Reverse(p, quantity, price, now).0, price, now), None)
    else
      var s := p.(side := side);
      if IsFlat(s) then (Mark(s.(quantity := quantity, avgPrice := price), price, now), None)
      else
        match Add(s, quantity - s.quantity, price, now)
        case Ok(a) => (Mark(a, price, now), None)
        case Err(e) => (s, Some(e))
  }

  /** Asking an open position to stay on its side at the same or a smaller size raises. */
  lemma TargetShrinkRaises(p: PositionData, quantity: real, price: real, now: int)
    requires Inv(p) && !IsFlat(p) && 0.0 <= quantity <= p.quantity
    ensures Target(p, p.side, quantity, price, now).1 == Some(NonPositiveAdd)
  {
  }

  /** A SHORT request on an open long position ends LONG. */
  lemma TargetShortOnLongEndsLong(p: PositionData, quantity: real, price: real, now: int)
    requires Inv(p) && IsLong(p) && quantity > 0.0
    ensures Target(p, Short, quantity, price, now).0.side == Long
    ensures Target(p, Short, quantity, price, now).0.quantity == quantity
  {
  }

  /**
   * The intended dispatch: a same-side change of size adds or
   * reduces the difference (an equal size only marks), and a reversal flips the
   * side. Every request then reaches its target.
   */
  function TargetIntended(p: PositionData, side: Side, quantity: real, price: real, now: int): (r: PositionData)
    requires Inv(p) && quantity >= 0.0
    ensures Inv(r) && r.symbol == p.symbol && r.currentPrice == price && r.timestamp == now
    ensures side == Flat ==> IsFlat(r)
    ensures side != Flat ==> r.quantity == quantity && (quantity > 0.0 ==> r.side == side)
    ensures side != Flat && side == p.side && !IsFlat(p) && quantity < p.quantity ==>
              r.avgPrice == p.avgPrice
              && r.realizedPnl == p.realizedPnl + SideSign(side) * (p.quantity - quantity) * (price - p.avgPrice)
  {
    if side == Flat then Mark(Close(p, price, now).0, price, now)
    else if Opposed(p, side) then Mark(ReverseFlipped(p, quantity, price, now).0, price, now)
    else
      var s := p.(side := side);
      if IsFlat(s) then Mark(s.(quantity := quantity, avgPrice := price), price, now)
      else if quantity > s.quantity then Mark(Add(s, quantity - s.quantity, price, now).value, price, now)
      else if quantity < s.quantity then Mark(Reduce(s, s.quantity - quantity, price, now).value.0, price, now)
      else Mark(s, price, now)
  }

  /** Wherever the dispatch as written does not raise, it agrees with the intended one, except on a reversal's side. */
  lemma TargetAgreesWhenItSucceeds(p: PositionData, side: Side, quantity: real, price: real, now: int)
    requires Inv(p) && quantity >= 0.0
    requires Target(p, side, quantity, price, now).1.None?
    requires !(Opposed(p, side) && quantity > 0.0)
    ensures Target(p, side, quantity, price, now).0 == TargetIntended(p, side, quantity, price, now)
  {
  }

  // ---- totals over a snapshot of the registry ----

  /** `sum(pos.realized_pnl ...)`, left to right. */
  function TotalRealized(ds: seq<PositionData>): real
  {
    if ds == [] then 0.0 else TotalRealized(ds[..|ds| - 1]) + ds[|ds| - 1].realizedPnl
  }

  function TotalUnrealized(ds: seq<PositionData>): real
  {
    if ds == [] then 0.0 else TotalUnrealized(ds[..|ds| - 1]) + ds[|ds| - 1].unrealizedPnl
  }

  /** `sum(pos.market_value ... if not pos.is_flat)`: flat entries contribute nothing. */
  function TotalMarket(ds: seq<PositionData>): (r: real)
    ensures (forall i :: 0 <= i < |ds| ==> IsFlat(ds[i])) ==> r == 0.0
  {
    if ds == [] then 0.0
    else TotalMarket(ds[..|ds| - 1]) + (if IsFlat(ds[|ds| - 1]) then 0.0 else MarketValue(ds[|ds| - 1]))
  }

  /** The entries of a snapshot that are not flat, in order. */
  function Active(ds: seq<PositionData>): (r: seq<PositionData>)
    ensures forall i :: 0 <= i < |r| ==> !IsFlat(r[i])
    ensures forall d :: d in r <==> d in ds && !IsFlat(d)
  {
    if ds == [] then []
    else Active(ds[..|ds| - 1]) + (if IsFlat(ds[|ds| - 1]) then [] else [ds[|ds| - 1]])
  }

  function SumMarket(ds: seq<PositionData>): real
  {
    if ds == [] then 0.0 else SumMarket(ds[..|ds| - 1]) + MarketValue(ds[|ds| - 1])
  }

  lemma {:induction false} SumMarketAppend(ds: seq<PositionData>, es: seq<PositionData>)
    ensures SumMarket(ds + es) == SumMarket(ds) + SumMarket(es)
    decreases |es|
  {
    if es != [] {
      var last := es[|es| - 1];
      assert (ds + es)[..|ds + es| - 1] == ds + es[..|es| - 1];
      SumMarketAppend(ds, es[..|es| - 1]);
    } else {
      assert ds + es == ds;
    }
  }

  /** The total market value is the plain sum of market values over the active entries. */
  lemma {:induction false} TotalMarketIsActiveSum(ds: seq<PositionData>)
    ensures TotalMarket(ds) == SumMarket(Active(ds))
    decreases |ds|
  {
    if ds != [] {
      var init := ds[..|ds| - 1];
      var last := ds[|ds| - 1];
      TotalMarketIsActiveSum(init);
      var tail := if IsFlat(last) then [] else [last];
      SumMarketAppend(Active(init), tail);
      assert SumMarket(tail) == (if IsFlat(last) then 0.0 else MarketValue(last)) by {
        if !IsFlat(last) {
          assert tail[..0] == [];
        }
      }
    }
  }

  /** Appending a fresh flat position leaves every total unchanged. */
  lemma NewFlatEntryAddsNothing(ds: seq<PositionData>, symbol: string, now: int)
    ensures TotalRealized(ds + [FlatPosition(symbol, now)]) == TotalRealized(ds)
    ensures TotalUnrealized(ds + [FlatPosition(symbol, now)]) == TotalUnrealized(ds)
    ensures TotalMarket(ds + [FlatPosition(symbol, now)]) == TotalMarket(ds)
  {
    assert (ds + [FlatPosition(symbol, now)])[..|ds|] == ds;
  }

  /** Two snapshots that agree entry by entry on realized PnL have the same total realized PnL. */
  lemma {:induction false} SameRealizedSameTotal(ds: seq<PositionData>, es: seq<PositionData>)
    requires |ds| == |es|
    requires forall i :: 0 <= i < |ds| ==> ds[i].realizedPnl == es[i].realizedPnl
    ensures TotalRealized(ds) == TotalRealized(es)
    decreases |ds|
  {
    if ds != [] {
      SameRealizedSameTotal(ds[..|ds| - 1], es[..|es| - 1]);
    }
  }

  /** Registering one more position adds its realized PnL to the total. */
  lemma TotalRealizedSnoc(ds: seq<PositionData>, d: PositionData)
    ensures TotalRealized(ds + [d]) == TotalRealized(ds) + d.realizedPnl
  {
    assert (ds + [d])[..|ds|] == ds;
  }

  /**
   * When only the entry at `i` changes its realized PnL, the total moves by
   * exactly that change: realized PnL is never double counted or lost.
   */
  lemma {:induction false} OneChangedTotal(ds: seq<PositionData>, es: seq<PositionData>, i: int)
    requires |ds| == |es| && 0 <= i < |ds|
    requires forall j :: 0 <= j < |ds| && j != i ==> ds[j].realizedPnl == es[j].realizedPnl
    ensures TotalRealized(es) == TotalRealized(ds) - ds[i].realizedPnl + es[i].realizedPnl
    decreases |ds|
  {
    var n := |ds| - 1;
    if i == n {
      SameRealizedSameTotal(ds[..n], es[..n]);
    } else {
      OneChangedTotal(ds[..n], es[..n], i);
    }
  }

  /**
   * A snapshot in which only entry `k` may differ, or gains `k` as a new last
   * entry, has its total realized PnL moved by that entry alone.
   */
  lemma OneEntryTotal(ds: seq<PositionData>, es: seq<PositionData>, k: int)
    requires 0 <= k < |es| && (|es| == |ds| || (|es| == |ds| + 1 && k == |ds|))
    requires forall j :: 0 <= j < |ds| && j != k ==> ds[j].realizedPnl == es[j].realizedPnl
    ensures TotalRealized(es) == TotalRealized(ds) + es[k].realizedPnl - (if k < |ds| then ds[k].realizedPnl else 0.0)
  {
    if |es| == |ds| {
      OneChangedTotal(ds, es, k);
    } else {
      SameRealizedSameTotal(ds, es[..k]);
      assert es == es[..k] + [es[k]];
      TotalRealizedSnoc(es[..k], es[k]);
    }
  }

  /** The values held by `m` at `ss`, in order. */
  function Entries(m: map<string, Position>, ss: seq<string>): (r: seq<PositionData>)
    reads m.Values
    requires forall s :: s in ss ==> s in m
    ensures |r| == |ss|
    ensures forall i :: 0 <= i < |ss| ==> r[i] == m[ss[i]].Data()
  {
    if ss == [] then [] else Entries(m, ss[..|ss| - 1]) + [m[ss[|ss| - 1]].Data()]
  }

  /**
   * What the registry keeps: `ss` lists the keys of `m` once each, and every
   * position is filed under its own symbol (so no object is filed twice) with
   * a non-negative size.
   */
  ghost predicate Wf(m: map<string, Position>, ss: seq<string>)
    reads m.Values
  {
    && (forall s :: s in m <==> s in ss)
    && (forall i, j :: 0 <= i < j < |ss| ==> ss[i] != ss[j])
    && (forall s :: s in m ==> m[s].symbol == s && Inv(m[s].Data()))
  }

  /** Filing a new object under a new key at the end keeps the registry well formed. */
  lemma WfInsert(m: map<string, Position>, ss: seq<string>, k: string, p: Position)
    requires Wf(m, ss) && k !in m && p !in m.Values
    requires p.symbol == k && Inv(p.Data())
    ensures Wf(m[k := p], ss + [k])
  {
  }

  /** The body of `update_position` once the position is looked up, proved against `Target`. */
  method Dispatch(p: Position, quantity: real, side: Side, price: real, now: int) returns (err: Option<PositionError>)
    requires Inv(p.Data()) && quantity >= 0.0
    modifies p
    ensures (p.Data(), err) == Target(old(p.Data()), side, quantity, price, now)
  {
    ghost var before := p.Data();
    err := None;
    if side == Flat {
      var _ := p.ClosePosition(price, now);
    } else if side == Long {
      if IsShort(p.Data()) {
        var _ := p.ReversePosition(quantity, price, now);
      } else {
        p.side := Long;
        if IsFlat(p.Data()) {
          p.quantity := quantity;
          p.avgPrice := price;
        } else {
          err := p.AddPosition(quantity - p.quantity, price, now);
          if err.Some? {
            return;
          }
        }
      }
    } else {
      if IsLong(p.Data()) {
        var _ := p.ReversePosition(quantity, price, now);
      } else {
        p.side := Short;
        if IsFlat(p.Data()) {
          p.quantity := quantity;
          p.avgPrice := price;
        } else {
          err := p.AddPosition(quantity - p.quantity, price, now);
          if err.Some? {
            return;
          }
        }
      }
    }
    p.UpdatePrice(price, now);
  }

  class PositionManager {
    var positions: map<string, Position>
    var symbols: seq<string>   // insertion order of `positions`

    ghost predicate Valid()
      reads this, positions.Values
    {
      Wf(positions, symbols)
    }

    constructor ()
      ensures Valid() && positions == map[] && symbols == []
    {
      positions := map[];
      symbols := [];
    }

    /** The registry's positions, in insertion order. */
    function Snapshot(): (r: seq<PositionData>)
      reads this, positions.Values
      requires forall s :: s in symbols ==> s in positions
      ensures |r| == |symbols|
      ensures forall i :: 0 <= i < |symbols| ==> r[i] == positions[symbols[i]].Data()
    {
      Entries(positions, symbols)
    }

    /**
     * `get_position`: the registered position, or a new flat one registered
     * under `symbol` (the zero-valued flat position; the factory as written
     * rejects it, see `Positions.FlatFactoryAlwaysRejected`).
     */
    method GetPosition(symbol: string, now: int) returns (p: Position)
      requires Valid()
      modifies this
      ensures Valid() && symbol in positions && p == positions[symbol]
      ensures symbol in old(positions) ==> positions == old(positions) && symbols == old(symbols)
      ensures symbol !in old(positions) ==>
                fresh(p) && p.Data() == FlatPosition(symbol, now)
                && positions == old(positions)[symbol := p] && symbols == old(symbols) + [symbol]
    {
      if symbol !in positions {
        p := new Position(FlatPosition(symbol, now));
        WfInsert(positions, symbols, symbol, p);
        positions := positions[symbol := p];
        symbols := symbols + [symbol];
      }
      p := positions[symbol];
    }

    /** `update_position`, proved against `Target` on the (possibly new) position's value. */
    method UpdatePosition(symbol: string, quantity: real, side: Side, price: real, now: int)
      returns (err: Option<PositionError>)
      requires Valid() && quantity >= 0.0
      modifies this, positions.Values
      ensures Valid() && symbol in positions
      ensures var before := if symbol in old(positions) then old(positions[symbol].Data()) else FlatPosition(symbol, now);
              (positions[symbol].Data(), err) == Target(before, side, quantity, price, now)
      ensures symbols == (if symbol in old(positions) then old(symbols) else old(symbols) + [symbol])
      ensures forall s :: s in old(positions) && s != symbol ==>
                positions[s] == old(positions[s]) && positions[s].Data() == old(positions[s].Data())
      ensures TotalRealizedPnl() == old(TotalRealizedPnl()) + positions[symbol].Data().realizedPnl
                                    - (if symbol in old(positions) then old(positions[symbol].Data()).realizedPnl else 0.0)
    {
      ghost var ds := Snapshot();
      err := Apply(symbol, quantity, side, price, now);
      ghost var es := Snapshot();
      assert symbol in symbols;
      ghost var k :| 0 <= k < |symbols| && symbols[k] == symbol;
      assert es[k] == positions[symbol].Data();
      if symbol in old(positions) {
        assert |es| == |ds| && ds[k] == old(positions[symbol].Data());
      } else {
        assert symbol !in old(symbols);
        assert k == |ds|;
      }
      forall j | 0 <= j < |ds| && j != k ensures ds[j].realizedPnl == es[j].realizedPnl {
        var s := symbols[j];
        assert s == old(symbols)[j] && s in old(positions) && s != symbol;
        assert ds[j] == old(positions[s].Data());
        assert es[j] == positions[s].Data();
      }
      OneEntryTotal(ds, es, k);
    }

    /** The look-up and dispatch of `update_position`, without the bookkeeping of totals. */
    method Apply(symbol: string, quantity: real, side: Side, price: real, now: int)
      returns (err: Option<PositionError>)
      requires Valid() && quantity >= 0.0
      modifies this, positions.Values
      ensures Valid() && symbol in positions
      ensures var before := if symbol in old(positions) then old(positions[symbol].Data()) else FlatPosition(symbol, now);
              (positions[symbol].Data(), err) == Target(before, side, quantity, price, now)
      ensures symbols == (if symbol in old(positions) then old(symbols) else old(symbols) + [symbol])
      ensures forall s :: s in old(positions) && s != symbol ==>
                positions[s] == old(positions[s]) && positions[s].Data() == old(positions[s].Data())
    {
      var p := GetPosition(symbol, now);
      assert forall s :: s in positions && s != symbol ==> positions[s] != p;
      err := Dispatch(p, quantity, side, price, now);
      forall s | s in old(positions) && s != symbol
        ensures positions[s] == old(positions[s]) && positions[s].Data() == old(positions[s].Data())
      {
        assert positions[s] != p;
      }
      forall s | s in positions ensures positions[s].symbol == s && Inv(positions[s].Data()) {
        if s != symbol {
          assert positions[s].Data() == old(positions[s].Data());
        }
      }
    }

    /** `self.positions[symbol].update_price(price)`: one registered position is marked, no other changes. */
    method MarkOne(symbol: string, price: real, now: int)
      requires Valid() && symbol in positions
      modifies positions[symbol]
      ensures Valid()
      ensures positions[symbol].Data() == Mark(old(positions[symbol].Data()), price, now)
      ensures forall s :: s in positions && s != symbol ==> positions[s].Data() == old(positions[s].Data())
    {
      positions[symbol].UpdatePrice(price, now);
    }

    /** `update_prices`: mark every listed symbol that is registered; realized PnL is untouched. */
    method UpdatePrices(prices: map<string, real>, now: int)
      requires Valid()
      modifies positions.Values
      ensures Valid()
      ensures forall s :: s in positions ==>
                positions[s].Data() == (if s in prices then Mark(old(positions[s].Data()), prices[s], now)
                                        else old(positions[s].Data()))
      ensures TotalRealizedPnl() == old(TotalRealizedPnl())
    {
      ghost var ds := Snapshot();
      MarkAll(prices, now);
      ghost var es := Snapshot();
      forall i | 0 <= i < |ds| ensures ds[i].realizedPnl == es[i].realizedPnl {
        assert symbols[i] in positions;
      }
      SameRealizedSameTotal(ds, es);
    }

    /** The loop of `update_prices`: mark every listed symbol that is registered; nothing else changes. */
    method MarkAll(prices: map<string, real>, now: int)
      requires Valid()
      modifies positions.Values
      ensures Valid()
      ensures forall s :: s in positions ==>
                positions[s].Data() == (if s in prices then Mark(old(positions[s].Data()), prices[s], now)
                                        else old(positions[s].Data()))
    {
      var remaining := prices.Keys;
      while remaining != {}
        invariant Valid() && remaining <= prices.Keys
        invariant forall s :: s in positions ==>
                    positions[s].Data() == (if s in prices && s !in remaining then Mark(old(positions[s].Data()), prices[s], now)
                                            else old(positions[s].Data()))
        decreases remaining
      {
        var s :| s in remaining;
        if s in positions {
          MarkOne(s, prices[s], now);
        }
        remaining := remaining - {s};
      }
    }

    /** `get_active_positions`: exactly the registered entries that are not flat. */
    function ActivePositions(): (r: map<string, Position>)
      reads this, positions.Values
      ensures forall s :: s in r <==> s in positions && !IsFlat(positions[s].Data())
      ensures forall s :: s in r ==> r[s] == positions[s]
    {
      map s | s in positions && !IsFlat(positions[s].Data()) :: positions[s]
    }

    function TotalUnrealizedPnl(): real
      reads this, positions.Values
      requires Valid()
    {
      TotalUnrealized(Snapshot())
    }

    function TotalRealizedPnl(): real
      reads this, positions.Values
      requires Valid()
    {
      TotalRealized(Snapshot())
    }

    /** `get_total_market_value`: the sum over the active entries only. */
    function TotalMarketValue(): (r: real)
      reads this, positions.Values
      requires Valid()
      ensures r == SumMarket(Active(Snapshot()))
      ensures ActivePositions() == map[] ==> r == 0.0
    {
      TotalMarketIsActiveSum(Snapshot());
      TotalMarket(Snapshot())
    }

    method ClearPositions()
      modifies this
      ensures Valid() && positions == map[] && symbols == []
    {
      positions := map[];
      symbols := [];
    }
  }
}
