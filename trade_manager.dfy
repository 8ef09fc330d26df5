/**
 * The trade ledger (engine/trade.py, class TradeManager): trades indexed by
 * id plus the append-only history they were added in, with filters over the
 * history, totals over its filled trades and a summary of counts.
 */
module TradeLedger {
  import opened Common
  import opened Trades

  /** The trades of `ts` whose values satisfy `keep`, in their order (a list comprehension). */
  function Select(ts: seq<Trade>, keep: TradeData -> bool): (r: seq<Trade>)
    reads ts
    ensures |r| <= |ts|
    ensures forall t | t in r :: t in ts && keep(t.Data())
    ensures forall t | t in ts && keep(t.Data()) :: t in r
    decreases |ts|
  {
    if ts == [] then []
    else Select(ts[..|ts| - 1], keep) + (if keep(ts[|ts| - 1].Data()) then [ts[|ts| - 1]] else [])
  }

  /** A single trade is selected exactly when it passes the filter. */
  lemma SelectSingle(t: Trade, keep: TradeData -> bool)
    ensures Select([t], keep) == if keep(t.Data()) then [t] else []
  {
    assert [t][..0] == [];
  }

  /** Appending one trade to the input appends it to the selection exactly when it passes. */
  lemma SelectSnoc(ts: seq<Trade>, t: Trade, keep: TradeData -> bool)
    ensures Select(ts + [t], keep) == Select(ts, keep) + (if keep(t.Data()) then [t] else [])
  {
    assert (ts + [t])[..|ts|] == ts;
  }

  /** Selecting from two runs of trades is selecting from each, in order: order and repeats are kept. */
  lemma {:induction false} SelectAppend(a: seq<Trade>, b: seq<Trade>, keep: TradeData -> bool)
    ensures Select(a + b, keep) == Select(a, keep) + Select(b, keep)
    decreases |b|
  {
    if b == [] {
      assert a + b == a;
    } else {
      var init, last := b[..|b| - 1], b[|b| - 1];
      var tail := if keep(last.Data()) then [last] else [];
      assert b == init + [last];
      calc {
        Select(a + b, keep);
        { assert a + b == (a + init) + [last]; }
        Select((a + init) + [last], keep);
        { SelectSnoc(a + init, last, keep); }
        Select(a + init, keep) + tail;
        { SelectAppend(a, init, keep); }
        Select(a, keep) + Select(init, keep) + tail;
        { SelectSnoc(init, last, keep); }
        Select(a, keep) + Select(b, keep);
      }
    }
  }

  /** The number of trades selected is the number of positions in `ts` whose trade passes the filter. */
  lemma {:induction false} SelectCount(ts: seq<Trade>, keep: TradeData -> bool)
    ensures |Select(ts, keep)| == |Passing(ts, keep)|
    decreases |ts|
  {
    if ts != [] {
      var n := |ts| - 1;
      var init := ts[..n];
      SelectCount(init, keep);
      var before := Passing(init, keep);
      var after := Passing(ts, keep);
      forall i
        ensures i in after <==> i in before || (i == n && keep(ts[n].Data()))
      {
        if 0 <= i < n {
          assert ts[i] == init[i];
        }
      }
      if keep(ts[n].Data()) {
        assert n !in before;
        assert after == before + {n};
      } else {
        assert after == before;
      }
    }
  }

  /** The positions in `ts` whose trade passes the filter. */
  function Passing(ts: seq<Trade>, keep: TradeData -> bool): set<int>
    reads ts
  {
    set i | 0 <= i < |ts| && keep(ts[i].Data())
  }

  /** Two filters no trade satisfies together select at most the whole history between them. */
  lemma {:induction false} DisjointCounts(ts: seq<Trade>, f: TradeData -> bool, g: TradeData -> bool)
    requires forall d :: !(f(d) && g(d))
    ensures |Select(ts, f)| + |Select(ts, g)| <= |ts|
    decreases |ts|
  {
    if ts != [] {
      DisjointCounts(ts[..|ts| - 1], f, g);
    }
  }

  function IsOfType(tt: TradeType): TradeData -> bool
  {
    (d: TradeData) => d.tradeType == tt
  }

  /** Every trade has exactly one of the four types, so the four type counts add up to the history. */
  lemma {:induction false} TypeCountsPartition(ts: seq<Trade>)
    ensures |Select(ts, IsOfType(Buy))| + |Select(ts, IsOfType(Sell))|
            + |Select(ts, IsOfType(CloseLong))| + |Select(ts, IsOfType(CloseShort))| == |ts|
    decreases |ts|
  {
    if ts != [] {
      TypeCountsPartition(ts[..|ts| - 1]);
    }
  }

  function Commission(d: TradeData): real { d.commission }
  function RealizedPnl(d: TradeData): real { d.realizedPnl }

  /** `sum(f(trade) for trade in ts)`. */
  function SumOf(ts: seq<Trade>, f: TradeData -> real): (r: real)
    reads ts
    ensures (forall i | 0 <= i < |ts| :: f(ts[i].Data()) >= 0.0) ==> r >= 0.0
    decreases |ts|
  {
    if ts == [] then 0.0 else SumOf(ts[..|ts| - 1], f) + f(ts[|ts| - 1].Data())
  }

  /** A single pass over all trades that counts `f` only for the trades `keep` accepts. */
  function SumWhere(ts: seq<Trade>, keep: TradeData -> bool, f: TradeData -> real): real
    reads ts
    decreases |ts|
  {
    if ts == [] then 0.0
    else SumWhere(ts[..|ts| - 1], keep, f) + (if keep(ts[|ts| - 1].Data()) then f(ts[|ts| - 1].Data()) else 0.0)
  }

  /** Summing over the selected trades is summing over all trades with the others counted as zero. */
  lemma {:induction false} SumOverSelected(ts: seq<Trade>, keep: TradeData -> bool, f: TradeData -> real)
    ensures SumOf(Select(ts, keep), f) == SumWhere(ts, keep, f)
    decreases |ts|
  {
    if ts != [] {
      var init, last := ts[..|ts| - 1], ts[|ts| - 1];
      SumOverSelected(init, keep, f);
      if keep(last.Data()) {
        var s := Select(init, keep) + [last];
        assert s[..|s| - 1] == Select(init, keep);
      } else {
        assert Select(ts, keep) == Select(init, keep) + [] == Select(init, keep);
      }
    }
  }

  datatype TradeSummary = TradeSummary(
    totalTrades: int,
    filledTrades: int,
    pendingTrades: int,
    totalCommission: real,
    totalRealizedPnl: real,
    buyTrades: int,
    sellTrades: int,
    closeLongTrades: int,
    closeShortTrades: int)

  class TradeManager {
    var trades: map<string, Trade>
    var history: seq<Trade>

    /** Every indexed trade is in the history. */
    ghost predicate Valid()
      reads this
    {
      forall id :: id in trades ==> trades[id] in history
    }

    constructor ()
      ensures Valid() && trades == map[] && history == []
    {
      trades := map[];
      history := [];
    }

    /** `add_trade`: index the trade under its id (replacing any earlier one) and append it. */
    method AddTrade(t: Trade)
      requires Valid()
      modifies this
      ensures Valid()
      ensures trades == old(trades)[t.tradeId := t] && history == old(history) + [t]
      ensures GetTrade(t.tradeId) == Some(t) && TradeCount() == old(TradeCount()) + 1
      ensures forall id :: id != t.tradeId ==> GetTrade(id) == old(GetTrade(id))
      ensures FilledTrades() == old(FilledTrades()) + (if t.status == Filled then [t] else [])
      ensures PendingTrades() == old(PendingTrades()) + (if t.status == Pending then [t] else [])
      ensures forall symbol :: TradesBySymbol(symbol) == old(TradesBySymbol(symbol)) + (if t.symbol == symbol then [t] else [])
      ensures forall tt :: TradesByType(tt) == old(TradesByType(tt)) + (if t.tradeType == tt then [t] else [])
    {
      ghost var before := history;
      trades := trades[t.tradeId := t];
      history := history + [t];
      assert history[..|history| - 1] == before;
    }

    /** `get_trade`: the trade indexed under `id`, if any. */
    function GetTrade(id: string): (r: Option<Trade>)
      reads this
      ensures r.Some? <==> id in trades
      ensures r.Some? ==> r.value == trades[id]
      ensures Valid() && r.Some? ==> r.value in history
    {
      if id in trades then Some(trades[id]) else None
    }

    function TradesBySymbol(symbol: string): (r: seq<Trade>)
      reads this, history
      ensures forall t | t in r :: t in history && t.symbol == symbol
      ensures forall t | t in history && t.symbol == symbol :: t in r
    {
      Select(history, (d: TradeData) => d.symbol == symbol)
    }

    function FilledTrades(): (r: seq<Trade>)
      reads this, history
      ensures forall t | t in r :: t in history && t.status == Filled
      ensures forall t | t in history && t.status == Filled :: t in r
    {
      Select(history, IsFilled)
    }

    function PendingTrades(): (r: seq<Trade>)
      reads this, history
      ensures forall t | t in r :: t in history && t.status == Pending
      ensures forall t | t in history && t.status == Pending :: t in r
    {
      Select(history, IsPending)
    }

    function TradesByType(tradeType: TradeType): (r: seq<Trade>)
      reads this, history
      ensures forall t | t in r :: t in history && t.tradeType == tradeType
      ensures forall t | t in history && t.tradeType == tradeType :: t in r
    {
      Select(history, IsOfType(tradeType))
    }

    /** `get_total_commission`: commission summed over the filled trades only. */
    function TotalCommission(): (r: real)
      reads this, history
      ensures r == SumWhere(history, IsFilled, Commission)
      ensures (forall t | t in history :: t.commission >= 0.0) ==> r >= 0.0
    {
      SumOverSelected(history, IsFilled, Commission);
      var filled := FilledTrades();
      assert forall i | 0 <= i < |filled| :: filled[i] in filled && filled[i] in history;
      SumOf(filled, Commission)
    }

    /** `get_total_realized_pnl`: realized P&L summed over the filled trades only. */
    function TotalRealizedPnl(): (r: real)
      reads this, history
      ensures r == SumWhere(history, IsFilled, RealizedPnl)
    {
      SumOverSelected(history, IsFilled, RealizedPnl);
      var filled := FilledTrades();
      assert forall i | 0 <= i < |filled| :: filled[i] in filled && filled[i] in history;
      SumOf(filled, RealizedPnl)
    }

    function TradeCount(): int
      reads this
    {
      |history|
    }

    /** `get_filled_trade_count`: the number of history entries that are FILLED, repeats counted. */
    function FilledTradeCount(): (r: int)
      reads this, history
      ensures 0 <= r <= TradeCount()
      ensures r == |set i | 0 <= i < |history| && history[i].status == Filled|
    {
      SelectCount(history, IsFilled);
      assert Passing(history, IsFilled) == set i | 0 <= i < |history| && history[i].status == Filled;
      |FilledTrades()|
    }

    /** `get_trade_summary`: the counts partition the history by type; filled and pending never exceed it. */
    function TradeSummaryOf(): (s: TradeSummary)
      reads this, history
      ensures s.totalTrades == |history|
      ensures 0 <= s.filledTrades && 0 <= s.pendingTrades && s.filledTrades + s.pendingTrades <= s.totalTrades
      ensures s.buyTrades + s.sellTrades + s.closeLongTrades + s.closeShortTrades == s.totalTrades
      ensures s.totalCommission == SumWhere(history, IsFilled, Commission)
      ensures s.totalRealizedPnl == SumWhere(history, IsFilled, RealizedPnl)
    {
      DisjointCounts(history, IsFilled, IsPending);
      TypeCountsPartition(history);
      TradeSummary(
        |history|,
        |FilledTrades()|,
        |PendingTrades()|,
        TotalCommission(),
        TotalRealizedPnl(),
        |TradesByType(Buy)|,
        |TradesByType(Sell)|,
        |TradesByType(CloseLong)|,
        |TradesByType(CloseShort)|)
    }

    /** A ledger holding a filled buy, a filled sell and a pending buy reports 3 trades, 2 filled and 1 pending. */
    lemma SummaryExample(a: Trade, b: Trade, c: Trade)
      requires history == [a, b, c]
      requires a.tradeType == Buy && a.status == Filled
      requires b.tradeType == Sell && b.status == Filled
      requires c.tradeType == Buy && c.status == Pending
      ensures TradeCount() == 3 && |FilledTrades()| == 2 && |PendingTrades()| == 1
    {
      var h1, h2 := [a], [a, b];
      assert history[..2] == h2 && h2[..1] == h1 && h1[..0] == [];
      assert Select(h1, IsFilled) == [a] && Select(h2, IsFilled) == [a, b];
      assert Select(h1, IsPending) == [] && Select(h2, IsPending) == [];
    }

    method ClearTrades()
      modifies this
      ensures Valid() && trades == map[] && history == []
      ensures TradeCount() == 0 && TotalCommission() == 0.0
    {
      trades := map[];
      history := [];
    }
  }
}
