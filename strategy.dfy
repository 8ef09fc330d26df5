/**
 * Strategy bookkeeping (strategy/base.py): the bounded bar history that
 * `update_bar` keeps, the slices and averages read from it, the signal
 * record, and the moving-average crossover of `SimpleStrategy`.
 */
module Strategies {
  import opened Common
  import opened Bars
  import opened Signals
  import opened Positions
  import opened PositionManagers

  /** The default `max_size` of `_manage_history_size`. */
  const MaxHistory: nat := 1000

  datatype StrategyError =
    | ZeroDivision                       // `sum(prices) / len(prices)` over no prices
    | SignalRejected(e: SignalError)     // a signal factory raised inside `on_bar`

  // ---- the history buffer and its slices ----

  /**
   * `_manage_history_size`: `h[-max_size:]` when the history is longer than
   * `max_size`. With `max_size == 0` the slice `h[-0:]` is the whole list.
   */
  function Trimmed(h: seq<Bar>, maxSize: nat): (r: seq<Bar>)
    ensures maxSize > 0 ==> |r| == (if |h| < maxSize then |h| else maxSize)
    ensures maxSize == 0 ==> r == h
    ensures r == h[|h| - |r|..]
  {
    if |h| > maxSize && maxSize > 0 then h[|h| - maxSize..] else h
  }

  /** `get_history_bars(count)`: `h[-count:]` for a positive count, else the whole history. */
  function LastN(h: seq<Bar>, count: int): (r: seq<Bar>)
    ensures count > 0 ==> |r| == (if |h| < count then |h| else count)
    ensures count <= 0 ==> r == h
    ensures r == h[|h| - |r|..]
  {
    if count > 0 && count < |h| then h[|h| - count..] else h
  }

  /** The field `price_type` names; anything but "open", "high" or "low" reads the close. */
  function PriceOf(b: Bar, priceType: string): real
  {
    if priceType == "open" then b.open
    else if priceType == "high" then b.high
    else if priceType == "low" then b.low
    else b.close
  }

  /** The list comprehension over the chosen price field. */
  function Prices(bars: seq<Bar>, priceType: string): (r: seq<real>)
    ensures |r| == |bars|
    ensures forall i | 0 <= i < |bars| :: r[i] == PriceOf(bars[i], priceType)
    decreases |bars|
  {
    if bars == [] then [] else Prices(bars[..|bars| - 1], priceType) + [PriceOf(bars[|bars| - 1], priceType)]
  }

  /** `get_history_prices(count, price_type)`. */
  function HistoryPrices(h: seq<Bar>, count: int, priceType: string): seq<real>
  {
    Prices(LastN(h, count), priceType)
  }

  /**
   * `calculate_sma(period, price_type)`: no value while fewer than `period`
   * bars exist, otherwise the mean of the last `period` prices. A period of
   * zero or less averages the whole history, and raises on an empty one.
   */
  function Sma(h: seq<Bar>, period: int, priceType: string): (r: Result<Option<real>, StrategyError>)
    ensures r.Err? <==> period <= 0 && h == []
    ensures r.Err? ==> r.error == ZeroDivision
    ensures period > 0 ==> (r == Ok(None) <==> |h| < period)
    ensures period > 0 && |h| >= period ==>
              r == Ok(Some(Sum(Prices(h[|h| - period..], priceType)) / period as real))
    ensures period <= 0 && h != [] ==> r == Ok(Some(Sum(Prices(h, priceType)) / |h| as real))
  {
    var prices := HistoryPrices(h, period, priceType);
    if |prices| < period then Ok(None)
    else if |prices| == 0 then Err(ZeroDivision)
    else Ok(Some(Sum(prices) / |prices| as real))
  }

  /** Prices that all lie in `[lo, hi]` add up to between `n·lo` and `n·hi`. */
  lemma {:induction false} SumBetween(xs: seq<real>, lo: real, hi: real)
    requires forall i | 0 <= i < |xs| :: lo <= xs[i] <= hi
    ensures |xs| as real * lo <= Sum(xs) <= |xs| as real * hi
    decreases |xs|
  {
    if xs != [] {
      SumBetween(xs[..|xs| - 1], lo, hi);
    }
  }

  /** The mean of prices that all lie in `[lo, hi]` lies in `[lo, hi]`. */
  lemma MeanBetween(xs: seq<real>, lo: real, hi: real)
    requires xs != [] && forall i | 0 <= i < |xs| :: lo <= xs[i] <= hi
    ensures lo <= Sum(xs) / |xs| as real <= hi
  {
    SumBetween(xs, lo, hi);
    var s, n := Sum(xs), |xs| as real;
    assert s / n * n == s;
  }

  /** A moving average lies between the least and the greatest price of the history. */
  lemma SmaBetween(h: seq<Bar>, period: int, priceType: string, lo: real, hi: real)
    requires forall i | 0 <= i < |h| :: lo <= PriceOf(h[i], priceType) <= hi
    ensures var r := Sma(h, period, priceType); (r.Ok? && r.value.Some?) ==> lo <= r.value.value <= hi
  {
    var prices := HistoryPrices(h, period, priceType);
    var w := LastN(h, period);
    forall i | 0 <= i < |prices| ensures lo <= prices[i] <= hi {
      assert w[i] == h[|h| - |w| + i];
    }
    if prices != [] {
      MeanBetween(prices, lo, hi);
    }
  }

  /** Trimming the buffer to `maxSize` bars never changes a window of at most `maxSize` bars. */
  lemma TrimKeepsWindows(h: seq<Bar>, maxSize: nat, count: int)
    requires 0 < count <= maxSize
    ensures LastN(Trimmed(h, maxSize), count) == LastN(h, count)
  {
    var t := Trimmed(h, maxSize);
    var a, b := LastN(t, count), LastN(h, count);
    assert |a| == |b| <= |t|;
    assert a == h[|h| - |t|..][|t| - |a|..];
    assert h[|h| - |t|..][|t| - |a|..] == h[|h| - |a|..];
  }

  /** So every moving average of at most 1000 bars sees the same prices as over the untrimmed history. */
  lemma SmaUnaffectedByTrim(h: seq<Bar>, period: int, priceType: string)
    requires 0 < period <= MaxHistory
    ensures Sma(Trimmed(h, MaxHistory), period, priceType) == Sma(h, period, priceType)
  {
    TrimKeepsWindows(h, MaxHistory, period);
  }

  // ---- SimpleStrategy.on_bar ----

  /** The two rules of the crossover, once both averages exist and the position is known. */
  function Crossover(fast: real, slow: real, p: PositionData, bar: Bar): (r: Result<Option<Signal>, StrategyError>)
    ensures fast > slow && IsFlat(p) ==>
              r.Ok? && r.value.Some? && r.value.value.signalType == Buy
              && r.value.value.quantity == 1.0 && r.value.value.symbol == bar.symbol
    ensures fast < slow && IsLong(p) ==> r == Err(SignalRejected(ZeroQuantity))
    ensures !(fast > slow && IsFlat(p)) && !(fast < slow && IsLong(p)) ==> r == Ok(None)
  {
    if fast > slow && IsFlat(p) then
      match BuySignal(bar.symbol, 1.0, bar.datetime)
      case Ok(s) => Ok(Some(s))
      case Err(e) => Err(SignalRejected(e))
    else if fast < slow && IsLong(p) then
      match CloseSignal(bar.symbol, None, bar.datetime)
      case Ok(s) => Ok(Some(s))
      case Err(e) => Err(SignalRejected(e))
    else Ok(None)
  }

  /** The close rule as intended: a quantity-less close means "close everything" and is accepted. */
  function CrossoverIntended(fast: real, slow: real, p: PositionData, bar: Bar): (r: Result<Option<Signal>, StrategyError>)
    ensures r.Ok?
    ensures fast < slow && IsLong(p) ==> r.value.Some? && IsCloseSignal(r.value.value)
    ensures !(fast < slow && IsLong(p)) ==> r == Crossover(fast, slow, p, bar)
  {
    if fast < slow && IsLong(p) then
      CloseAllAccepted(bar.symbol, bar.datetime);
      match ValidatedCloseAll(Signal(bar.symbol, Close, 0.0, bar.datetime, Market, None, None, None, 0, None))
      case Ok(s) => Ok(Some(s))
      case Err(e) => Err(SignalRejected(e))
    else Crossover(fast, slow, p, bar)
  }

  /** Both averages of the close, once both exist. */
  function Averages(h: seq<Bar>, fastPeriod: int, slowPeriod: int): Result<Option<(real, real)>, StrategyError>
  {
    var fast :- Sma(h, fastPeriod, "close");
    var slow :- Sma(h, slowPeriod, "close");
    if fast.None? || slow.None? then Ok(None) else Ok(Some((fast.value, slow.value)))
  }

  /** How a strategy decides on each bar: an arbitrary decision, or the moving-average crossover. */
  datatype StrategyKind =
    | Custom(decide: (seq<Bar>, Bar) -> Option<Signal>)
    | SimpleMovingAverage(fastPeriod: int, slowPeriod: int)

  /**
   * `on_bar` given the history (already holding `bar`) and the position the
   * strategy would look up for the bar's symbol.
   */
  function OnBarSpec(kind: StrategyKind, h: seq<Bar>, bar: Bar, p: PositionData): (r: Result<Option<Signal>, StrategyError>)
    ensures kind.Custom? ==> r == Ok(kind.decide(h, bar))
    ensures (kind.SimpleMovingAverage? && 0 < kind.fastPeriod && 0 < kind.slowPeriod
             && (|h| < kind.fastPeriod || |h| < kind.slowPeriod)) ==> r == Ok(None)
  {
    match kind
    case Custom(decide) => Ok(decide(h, bar))
    case SimpleMovingAverage(fastPeriod, slowPeriod) => Decide(Averages(h, fastPeriod, slowPeriod), p, bar)
  }

  /**
   * The indicators after `on_bar`: the crossover stores both averages as
   * "fast_ma" and "slow_ma" once it has them; otherwise they are left alone.
   */
  function Indicated(kind: StrategyKind, h: seq<Bar>, indicators: map<string, real>): map<string, real>
  {
    match kind
    case Custom(_) => indicators
    case SimpleMovingAverage(fastPeriod, slowPeriod) =>
      var a := Averages(h, fastPeriod, slowPeriod);
      if a.Ok? && a.value.Some? then indicators["fast_ma" := a.value.value.0]["slow_ma" := a.value.value.1]
      else indicators
  }

  /** The crossover's answer once the averages are known: nothing until both exist. */
  function Decide(averages: Result<Option<(real, real)>, StrategyError>, p: PositionData, bar: Bar): Result<Option<Signal>, StrategyError>
  {
    var a :- averages;
    if a.None? then Ok(None) else Crossover(a.value.0, a.value.1, p, bar)
  }

  /** The crossover never closes a long position: its close rule raises instead. */
  lemma CrossoverNeverClosesALong(averages: Result<Option<(real, real)>, StrategyError>, p: PositionData, bar: Bar)
    requires IsLong(p)
    ensures var r := Decide(averages, p, bar); r.Ok? ==> r.value.None?
  {
    if averages.Ok? && averages.value.Some? {
      assert !IsFlat(p);
    }
  }

  /** The signals an `update_bar` call records: the one `on_bar` returned, if any. */
  function Recorded(r: Result<Option<Signal>, StrategyError>): (ss: seq<Signal>)
    ensures |ss| <= 1
    ensures |ss| == 1 <==> r.Ok? && r.value.Some?
    ensures |ss| == 1 ==> ss[0] == r.value.value
  {
    if r.Ok? && r.value.Some? then [r.value.value] else []
  }

  // ---- the strategy object ----

  class Strategy {
    const kind: StrategyKind
    const positions: PositionManager
    var isInitialized: bool
    var isRunning: bool
    var currentBar: Option<Bar>
    var barCount: int
    var barHistory: seq<Bar>
    var signalHistory: seq<Signal>
    var indicators: map<string, real>

    ghost predicate Valid()
      reads this, positions, positions.positions.Values
    {
      positions.Valid() && |barHistory| <= MaxHistory
    }

    constructor (kind: StrategyKind)
      ensures Valid() && this.kind == kind && fresh(positions)
      ensures !isInitialized && !isRunning && currentBar == None && barCount == 0
      ensures barHistory == [] && signalHistory == [] && indicators == map[]
      ensures positions.positions == map[]
    {
      this.kind := kind;
      positions := new PositionManager();
      isInitialized := false;
      isRunning := false;
      currentBar := None;
      barCount := 0;
      barHistory := [];
      signalHistory := [];
      indicators := map[];
    }

    /** `on_start`. */
    method Start()
      modifies this
      ensures isInitialized && isRunning
      ensures currentBar == old(currentBar) && barCount == old(barCount) && barHistory == old(barHistory)
      ensures signalHistory == old(signalHistory) && indicators == old(indicators)
    {
      isInitialized := true;
      isRunning := true;
    }

    /** `on_finish` (the printed summary is left out). */
    method Finish()
      modifies this
      ensures !isRunning && isInitialized == old(isInitialized)
      ensures currentBar == old(currentBar) && barCount == old(barCount) && barHistory == old(barHistory)
      ensures signalHistory == old(signalHistory) && indicators == old(indicators)
    {
      isRunning := false;
    }

    /** `_manage_history_size(max_size)`. */
    method ManageHistorySize(maxSize: nat)
      modifies this
      ensures barHistory == Trimmed(old(barHistory), maxSize)
      ensures maxSize > 0 ==> |barHistory| <= maxSize
      ensures isRunning == old(isRunning) && currentBar == old(currentBar) && barCount == old(barCount)
      ensures signalHistory == old(signalHistory) && indicators == old(indicators)
      ensures isInitialized == old(isInitialized)
    {
      if |barHistory| > maxSize && maxSize > 0 {
        barHistory := barHistory[|barHistory| - maxSize..];
      }
    }

    /** The position `get_position(symbol)` would hand out: the registered one, or a new flat one. */
    function PositionOf(symbol: string, now: int): PositionData
      reads this, positions, positions.positions.Values
    {
      if symbol in positions.positions then positions.positions[symbol].Data() else FlatPosition(symbol, now)
    }

    /**
     * `SimpleStrategy.on_bar` once both averages are computed: store them as
     * indicators and look the position up, which registers a new flat one for
     * an unknown symbol, then apply the crossover rules.
     */
    method Cross(averages: Result<Option<(real, real)>, StrategyError>, bar: Bar, now: int)
      returns (r: Result<Option<Signal>, StrategyError>)
      requires Valid()
      modifies this, positions
      ensures Valid()
      ensures r == Decide(averages, old(PositionOf(bar.symbol, now)), bar)
      ensures isInitialized == old(isInitialized) && isRunning == old(isRunning) && currentBar == old(currentBar)
      ensures barCount == old(barCount) && barHistory == old(barHistory) && signalHistory == old(signalHistory)
      ensures averages.Ok? && averages.value.Some? ==>
                indicators == old(indicators)["fast_ma" := averages.value.value.0]["slow_ma" := averages.value.value.1]
                && bar.symbol in positions.positions
                && positions.positions.Keys == old(positions.positions.Keys) + {bar.symbol}
      ensures !(averages.Ok? && averages.value.Some?) ==>
                indicators == old(indicators) && positions.positions == old(positions.positions)
      ensures forall s | s in old(positions.positions) :: s in positions.positions && positions.positions[s] == old(positions.positions[s])
    {
      if averages.Err? {
        r := Err(averages.error);
      } else if averages.value.None? {
        r := Ok(None);
      } else {
        var (fast, slow) := averages.value.value;
        indicators := indicators["fast_ma" := fast]["slow_ma" := slow];
        var p := positions.GetPosition(bar.symbol, now);
        r := Crossover(fast, slow, p.Data(), bar);
      }
    }

    /**
     * `on_bar`: the arbitrary decision reads the history only; the crossover
     * computes both averages of the close and goes on in `Cross`.
     */
    method OnBar(bar: Bar, now: int) returns (r: Result<Option<Signal>, StrategyError>)
      requires Valid()
      modifies this, positions
      ensures Valid()
      ensures r == OnBarSpec(kind, barHistory, bar, old(PositionOf(bar.symbol, now)))
      ensures isInitialized == old(isInitialized) && isRunning == old(isRunning) && currentBar == old(currentBar)
      ensures barCount == old(barCount) && barHistory == old(barHistory) && signalHistory == old(signalHistory)
      ensures kind.Custom? ==> indicators == old(indicators) && positions.positions == old(positions.positions)
      ensures kind.SimpleMovingAverage? ==>
                var a := Averages(barHistory, kind.fastPeriod, kind.slowPeriod);
                if a.Ok? && a.value.Some? then
                  indicators == old(indicators)["fast_ma" := a.value.value.0]["slow_ma" := a.value.value.1]
                  && bar.symbol in positions.positions
                  && positions.positions.Keys == old(positions.positions.Keys) + {bar.symbol}
                else
                  indicators == old(indicators) && positions.positions == old(positions.positions)
      ensures indicators == Indicated(kind, barHistory, old(indicators))
      ensures positions.positions.Keys <= old(positions.positions.Keys) + {bar.symbol}
      ensures forall s | s in old(positions.positions) :: s in positions.positions && positions.positions[s] == old(positions.positions[s])
    {
      match kind {
        case Custom(decide) =>
          r := Ok(decide(barHistory, bar));
        case SimpleMovingAverage(fastPeriod, slowPeriod) =>
          r := Cross(Averages(barHistory, fastPeriod, slowPeriod), bar, now);
      }
    }

    /** The bookkeeping half of `update_bar`: the bar becomes current, is counted and kept in the bounded history. */
    method RecordBar(bar: Bar)
      requires Valid()
      modifies this
      ensures Valid()
      ensures currentBar == Some(bar) && barCount == old(barCount) + 1
      ensures barHistory == Trimmed(old(barHistory) + [bar], MaxHistory) && barHistory[|barHistory| - 1] == bar
      ensures isInitialized == old(isInitialized) && isRunning == old(isRunning)
      ensures signalHistory == old(signalHistory) && indicators == old(indicators)
    {
      currentBar := Some(bar);
      barCount := barCount + 1;
      barHistory := barHistory + [bar];
      ManageHistorySize(MaxHistory);
    }

    /** The first half of `update_bar`: record the bar, then mark the registered position of its symbol. */
    method Advance(bar: Bar, now: int)
      requires Valid()
      modifies this, positions.positions.Values
      ensures Valid()
      ensures currentBar == Some(bar) && barCount == old(barCount) + 1
      ensures barHistory == Trimmed(old(barHistory) + [bar], MaxHistory) && barHistory[|barHistory| - 1] == bar
      ensures isInitialized == old(isInitialized) && isRunning == old(isRunning)
      ensures signalHistory == old(signalHistory) && indicators == old(indicators)
      ensures positions.positions == old(positions.positions)
      ensures PositionOf(bar.symbol, now) == (if bar.symbol in old(positions.positions)
                                              then Mark(old(positions.positions[bar.symbol].Data()), bar.close, now)
                                              else FlatPosition(bar.symbol, now))
      ensures forall s | s in positions.positions && s != bar.symbol ::
                positions.positions[s].Data() == old(positions.positions[s].Data())
    {
      RecordBar(bar);
      if bar.symbol in positions.positions {
        positions.MarkOne(bar.symbol, bar.close, now);
      }
    }

    /** The last step of `update_bar`: a signal, when there is one, is appended to the signal history. */
    method RecordSignal(r: Result<Option<Signal>, StrategyError>)
      modifies this
      ensures signalHistory == old(signalHistory) + Recorded(r)
      ensures isRunning == old(isRunning) && isInitialized == old(isInitialized) && currentBar == old(currentBar)
      ensures barCount == old(barCount) && barHistory == old(barHistory) && indicators == old(indicators)
    {
      if r.Ok? && r.value.Some? {
        signalHistory := signalHistory + [r.value.value];
      }
    }

    /** The second half of `update_bar`: ask `on_bar` for a signal and record it. */
    method Respond(bar: Bar, now: int) returns (r: Result<Option<Signal>, StrategyError>)
      requires Valid()
      modifies this, positions
      ensures Valid()
      ensures r == OnBarSpec(kind, barHistory, bar, old(PositionOf(bar.symbol, now)))
      ensures signalHistory == old(signalHistory) + Recorded(r)
      ensures currentBar == old(currentBar) && barCount == old(barCount) && barHistory == old(barHistory)
      ensures isRunning == old(isRunning) && isInitialized == old(isInitialized)
      ensures indicators == Indicated(kind, barHistory, old(indicators))
      ensures positions.positions.Keys <= old(positions.positions.Keys) + {bar.symbol}
      ensures forall s | s in old(positions.positions) :: s in positions.positions && positions.positions[s] == old(positions.positions[s])
    {
      r := OnBar(bar, now);
      RecordSignal(r);
    }

    /** The running half of `update_bar`: advance, then respond to the bar. */
    method Step(bar: Bar, now: int) returns (r: Result<Option<Signal>, StrategyError>)
      requires Valid()
      modifies this, positions, positions.positions.Values
      ensures Valid()
      ensures currentBar == Some(bar) && barCount == old(barCount) + 1
      ensures barHistory == Trimmed(old(barHistory) + [bar], MaxHistory) && barHistory[|barHistory| - 1] == bar
      ensures signalHistory == old(signalHistory) + Recorded(r)
      ensures r == OnBarSpec(kind, barHistory, bar,
                             if bar.symbol in old(positions.positions)
                             then Mark(old(positions.positions[bar.symbol].Data()), bar.close, now)
                             else FlatPosition(bar.symbol, now))
      ensures isRunning == old(isRunning) && isInitialized == old(isInitialized)
      ensures indicators == Indicated(kind, barHistory, old(indicators))
      ensures positions.positions.Keys <= old(positions.positions.Keys) + {bar.symbol}
      ensures forall s | s in old(positions.positions) ::
                s in positions.positions && positions.positions[s] == old(positions.positions[s])
                && positions.positions[s].Data() == (if s == bar.symbol then Mark(old(positions.positions[s].Data()), bar.close, now)
                                                     else old(positions.positions[s].Data()))
    {
      ghost var seen := if bar.symbol in positions.positions
                        then Mark(positions.positions[bar.symbol].Data(), bar.close, now)
                        else FlatPosition(bar.symbol, now);
      Advance(bar, now);
      assert PositionOf(bar.symbol, now) == seen;
      r := Respond(bar, now);
    }

    /**
     * `update_bar`: nothing happens while the strategy is stopped; otherwise the
     * bar becomes current, is counted and appended to the bounded history, the
     * registered position for its symbol is marked at its close, and the
     * signal `on_bar` returns, if any, is recorded and returned.
     */
    method UpdateBar(bar: Bar, now: int) returns (r: Result<Option<Signal>, StrategyError>)
      requires Valid()
      modifies this, positions, positions.positions.Values
      ensures Valid()
      ensures !old(isRunning) ==>
                r == Ok(None) && currentBar == old(currentBar) && barCount == old(barCount)
                && barHistory == old(barHistory) && signalHistory == old(signalHistory)
                && indicators == old(indicators) && positions.positions == old(positions.positions)
                && forall s | s in positions.positions :: positions.positions[s].Data() == old(positions.positions[s].Data())
      ensures old(isRunning) ==>
                currentBar == Some(bar) && barCount == old(barCount) + 1
                && barHistory == Trimmed(old(barHistory) + [bar], MaxHistory)
                && barHistory[|barHistory| - 1] == bar
                && signalHistory == old(signalHistory) + Recorded(r)
      ensures old(isRunning) ==>
                var seen := if bar.symbol in old(positions.positions)
                            then Mark(old(positions.positions[bar.symbol].Data()), bar.close, now)
                            else FlatPosition(bar.symbol, now);
                r == OnBarSpec(kind, barHistory, bar, seen)
      ensures old(isRunning) ==>
                indicators == Indicated(kind, barHistory, old(indicators))
                && positions.positions.Keys <= old(positions.positions.Keys) + {bar.symbol}
      ensures old(isRunning) ==>
                forall s | s in old(positions.positions) ::
                  s in positions.positions && positions.positions[s] == old(positions.positions[s])
                  && positions.positions[s].Data() == (if s == bar.symbol then Mark(old(positions.positions[s].Data()), bar.close, now)
                                                       else old(positions.positions[s].Data()))
      ensures isRunning == old(isRunning) && isInitialized == old(isInitialized)
    {
      if !isRunning {
        return Ok(None);
      }
      r := Step(bar, now);
    }
  }
}
