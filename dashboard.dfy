/** The dashboard's aggregator (services/dashboard/main.py): bounded views over
    the `price_updates`, `trade_signals` and `executor_pnl` channels, the tail of
    the durable trade history, and a Sharpe ratio recomputed from the durable
    `returns` list on every executor update. */
module Dashboard {
  import opened Wrappers
  import opened Messages
  import opened Stats
  import opened Windows
  import TradeExecutor

  /** `deque(maxlen=10)` for the price and signal logs. */
  const LogCap: nat := 10
  /** `deque(maxlen=50)` for each symbol's chart series. */
  const SeriesCap: nat := 50
  /** `LRANGE trade_history -10 -1`. */
  const HistoryTail: nat := 10

  /** One entry of the durable `returns` list as the parser sees it: Python's
      `None`, the empty string, text that `float` accepts, or text it rejects. */
  datatype RawReturn = Missing | Blank | Number(value: real) | NotANumber

  /** What the subscription loop hands to its body: an event that is not a
      `message`, a payload that does not decode, or a decoded payload from one
      of the three channels. */
  datatype Inbound =
    | NotAMessage
    | Undecodable
    | PriceMsg(tick: PriceTick)
    | SignalMsg(signal: TradeSignal)
    | PnlMsg(state: TradeExecutor.Portfolio)

  /** What the page handler reads: every view, copied. `pnl` is `None` until the
      first executor update (the initial `{}`). */
  datatype Snapshot = Snapshot(
    prices: seq<PriceTick>,
    signals: seq<TradeSignal>,
    pnl: Option<TradeExecutor.Portfolio>,
    history: seq<TradeExecutor.TradeRecord>,
    sharpe: real,
    charts: map<string, seq<real>>)

  /** `sqrt` is left abstract: any function that gives the non-negative square
      root of every non-negative real. */
  ghost predicate IsSqrt(sqrt: real -> real) {
    forall x :: 0.0 <= x ==> 0.0 <= sqrt(x) && sqrt(x) * sqrt(x) == x
  }

  /** Python truthiness of the `s` field: present and not the empty string. */
  predicate Truthy(s: Option<string>) {
    s.Some? && s.value != ""
  }

  /** Number of entries that `float` parses. */
  function CountNumbers(raw: seq<RawReturn>): nat
    decreases |raw|
  {
    if raw == [] then 0
    else CountNumbers(raw[..|raw| - 1]) + (if raw[|raw| - 1].Number? then 1 else 0)
  }

  /** `[float(r) for r in raw if r not in (None, "")]`: `None` and empty entries are
      dropped, the others parsed in order; one that does not parse raises, which
      is `None` here. */
  function ParseReturns(raw: seq<RawReturn>): (r: Option<seq<real>>)
    ensures r.Some? <==> forall i :: 0 <= i < |raw| ==> raw[i] != NotANumber
    ensures r.Some? ==> |r.value| == CountNumbers(raw)
    ensures r.Some? ==> forall k :: 0 <= k < |r.value| ==> Number(r.value[k]) in raw
    decreases |raw|
  {
    if raw == [] then Some([])
    else
      var init, last := raw[..|raw| - 1], raw[|raw| - 1];
      match ParseReturns(init)
      case None => None
      case Some(xs) =>
        match last
        case Missing => Some(xs)
        case Blank => Some(xs)
        case Number(x) => Some(xs + [x])
        case NotANumber => None
  }

  /** Parsing distributes over concatenation: the two halves parse, and the
      results are joined, or the whole fails. */
  lemma {:induction false} ParseReturnsAppend(a: seq<RawReturn>, b: seq<RawReturn>)
    ensures ParseReturns(a + b) ==
      if ParseReturns(a).Some? && ParseReturns(b).Some?
      then Some(ParseReturns(a).value + ParseReturns(b).value)
      else None
    decreases |b|
  {
    if b == [] {
      assert a + b == a;
      assert ParseReturns(b) == Some([]);
      if ParseReturns(a).Some? {
        assert ParseReturns(a).value + [] == ParseReturns(a).value;
      }
    } else {
      var init, last := b[..|b| - 1], b[|b| - 1];
      assert (a + b)[..|a + b| - 1] == a + init;
      assert (a + b)[|a + b| - 1] == last;
      ParseReturnsAppend(a, init);
      if ParseReturns(a).Some? && ParseReturns(init).Some? && last.Number? {
        assert ParseReturns(a).value + ParseReturns(init).value + [last.value]
            == ParseReturns(a).value + (ParseReturns(init).value + [last.value]);
      }
    }
  }

  /** One entry: `None` and the empty string give no return, a number gives
      itself, and text `float` rejects fails the whole parse. */
  lemma ParseReturnsSingle(e: RawReturn)
    ensures ParseReturns([e]) ==
      match e
      case Missing => Some([])
      case Blank => Some([])
      case Number(x) => Some([x])
      case NotANumber => None
  {
    assert [e][..0] == [];
    assert ParseReturns([]) == Some([]);
    if e.Number? {
      assert [] + [e.value] == [e.value];
    }
  }

  /** The Sharpe ratio of the parsed returns: the mean over the population
      standard deviation, and 0 with fewer than two returns or a zero deviation. */
  function SharpeRatio(sample: seq<real>, sqrt: real -> real): real
    requires IsSqrt(sqrt)
  {
    if |sample| >= 2 then
      var std := sqrt(Variance(sample));
      if std > 0.0 then Mean(sample) / std else 0.0
    else 0.0
  }

  /** With fewer than two returns, or returns that are all equal, the ratio is 0. */
  lemma SharpeZeroCases(sample: seq<real>, sqrt: real -> real)
    requires IsSqrt(sqrt)
    requires |sample| < 2 || Constant(sample)
    ensures SharpeRatio(sample, sqrt) == 0.0
  {
    if |sample| >= 2 {
      VarianceZeroIffConstant(sample);
      var v := sqrt(0.0);
      assert v * v == 0.0;
      if v != 0.0 {
        assert v > 0.0;
        AddProductOfPositives(0.0, v, v);
        assert false;
      }
    }
  }

  /** With at least two returns that are not all equal, the deviation is
      positive, the ratio is the mean over it, and the ratio has the sign of the
      mean. */
  lemma SharpeOfSpreadReturns(sample: seq<real>, sqrt: real -> real)
    requires IsSqrt(sqrt)
    requires |sample| >= 2 && !Constant(sample)
    ensures sqrt(Variance(sample)) > 0.0
    ensures SharpeRatio(sample, sqrt) == Mean(sample) / sqrt(Variance(sample))
    ensures SharpeRatio(sample, sqrt) > 0.0 <==> Mean(sample) > 0.0
    ensures SharpeRatio(sample, sqrt) < 0.0 <==> Mean(sample) < 0.0
  {
    VarianceZeroIffConstant(sample);
    var v := Variance(sample);
    var std := sqrt(v);
    assert std >= 0.0 && std * std == v;
    if std == 0.0 {
      assert false;
    }
    var m := Mean(sample);
    SignOfQuotient(m, std);
  }

  lemma SignOfQuotient(a: real, b: real)
    requires b > 0.0
    ensures a / b > 0.0 <==> a > 0.0
    ensures a / b < 0.0 <==> a < 0.0
  {
    var q := a / b;
    assert q * b == a;
    if q > 0.0 { AddProductOfPositives(0.0, q, b); }
    if q < 0.0 { AddProductOfPositives(0.0, -q, b); assert (-q) * b == -a; }
  }

  /** The dashboard's views. As ghost state: every tick, every signal, and every
      close per symbol that the views have been fed. */
  class View {
    var priceLog: seq<PriceTick>
    var signalLog: seq<TradeSignal>
    var latestPnl: Option<TradeExecutor.Portfolio>
    var tradeHistory: seq<TradeExecutor.TradeRecord>
    var sharpeRatio: real
    var symbolPrices: map<string, seq<real>>

    ghost var ticks: seq<PriceTick>
    ghost var signals: seq<TradeSignal>
    ghost var closes: map<string, seq<real>>

    /** The logs hold the newest 10 arrivals newest first, each chart series the
        newest 50 closes of its symbol oldest first, and the trade history at most
        10 entries. */
    ghost predicate Valid()
      reads this
    {
      && priceLog == Reverse(KeepLast(ticks, LogCap))
      && signalLog == Reverse(KeepLast(signals, LogCap))
      && ChartsValid()
      && |tradeHistory| <= HistoryTail
    }

    /** Each chart series is the newest `SeriesCap` closes of its symbol. */
    ghost predicate ChartsValid()
      reads this
    {
      && symbolPrices.Keys == closes.Keys
      && forall s :: s in symbolPrices ==> symbolPrices[s] == KeepLast(closes[s], SeriesCap)
    }

    ghost function ClosesOf(s: string): seq<real>
      reads this`closes
    {
      if s in closes then closes[s] else []
    }

    function SeriesOf(s: string): seq<real>
      reads this`symbolPrices
    {
      if s in symbolPrices then symbolPrices[s] else []
    }

    constructor ()
      ensures Valid()
      ensures priceLog == [] && signalLog == [] && latestPnl == None && tradeHistory == []
      ensures sharpeRatio == 0.0 && symbolPrices == map[]
      ensures ticks == [] && signals == [] && closes == map[]
    {
      priceLog, signalLog, latestPnl, tradeHistory, sharpeRatio := [], [], None, [], 0.0;
      symbolPrices := map[];
      ticks, signals, closes := [], [], map[];
      new;
      assert Reverse(KeepLast(ticks, LogCap)) == [] && Reverse(KeepLast(signals, LogCap)) == [];
    }

    /** A tick: it goes to the front of the price log, and its close to the back
        of its symbol's series when the symbol is truthy and the close present. */
    method OnPrice(tick: PriceTick)
      requires Valid()
      modifies this
      ensures Valid()
      ensures ticks == old(ticks) + [tick]
      ensures priceLog == AppendLeft(old(priceLog), tick, LogCap)
      ensures Truthy(tick.s) && tick.c.Some? ==>
        && closes == old(closes)[tick.s.value := old(ClosesOf(tick.s.value)) + [tick.c.value]]
        && symbolPrices == old(symbolPrices)[tick.s.value := Append(old(SeriesOf(tick.s.value)), tick.c.value, SeriesCap)]
      ensures !(Truthy(tick.s) && tick.c.Some?) ==> symbolPrices == old(symbolPrices) && closes == old(closes)
      ensures signalLog == old(signalLog) && signals == old(signals) && latestPnl == old(latestPnl)
      ensures tradeHistory == old(tradeHistory) && sharpeRatio == old(sharpeRatio)
    {
      AppendLeftKeepsNewest(ticks, tick, LogCap);
      priceLog := AppendLeft(priceLog, tick, LogCap);
      ticks := ticks + [tick];
      if Truthy(tick.s) && tick.c.Some? {
        AddClose(tick.s.value, tick.c.value);
      }
    }

    /** `symbol_prices[symbol].append(close)`, creating the series on first use. */
    method AddClose(symbol: string, close: real)
      requires ChartsValid()
      modifies this`symbolPrices, this`closes
      ensures ChartsValid()
      ensures closes == old(closes)[symbol := old(ClosesOf(symbol)) + [close]]
      ensures symbolPrices == old(symbolPrices)[symbol := Append(old(SeriesOf(symbol)), close, SeriesCap)]
    {
      var series := if symbol in symbolPrices then symbolPrices[symbol] else [];
      series := series + [close];
      if |series| > SeriesCap {
        series := series[1..];
      }
      ghost var past := ClosesOf(symbol);
      assert series == Append(SeriesOf(symbol), close, SeriesCap);
      AppendKeepsNewest(past, close, SeriesCap);
      symbolPrices := symbolPrices[symbol := series];
      closes := closes[symbol := past + [close]];
    }

    /** A signal goes to the front of the signal log; nothing else changes. */
    method OnSignal(signal: TradeSignal)
      requires Valid()
      modifies this
      ensures Valid()
      ensures signals == old(signals) + [signal]
      ensures signalLog == AppendLeft(old(signalLog), signal, LogCap)
      ensures priceLog == old(priceLog) && ticks == old(ticks) && latestPnl == old(latestPnl)
      ensures symbolPrices == old(symbolPrices) && closes == old(closes)
      ensures tradeHistory == old(tradeHistory) && sharpeRatio == old(sharpeRatio)
    {
      AppendLeftKeepsNewest(signals, signal, LogCap);
      signalLog := AppendLeft(signalLog, signal, LogCap);
      signals := signals + [signal];
    }

    /** An executor update: the latest state is replaced whole, the trade history
        becomes the newest 10 durable entries (oldest first), and the Sharpe ratio
        is recomputed from the whole durable `returns` list, unless an entry of it
        fails to parse, which leaves the old ratio in place. */
    method OnPnl(state: TradeExecutor.Portfolio, durableTrades: seq<TradeExecutor.TradeRecord>,
                 durableReturns: seq<RawReturn>, sqrt: real -> real)
      requires Valid() && IsSqrt(sqrt)
      modifies this
      ensures Valid()
      ensures latestPnl == Some(state)
      ensures tradeHistory == KeepLast(durableTrades, HistoryTail)
      ensures ParseReturns(durableReturns).Some? ==> sharpeRatio == SharpeRatio(ParseReturns(durableReturns).value, sqrt)
      ensures ParseReturns(durableReturns).None? ==> sharpeRatio == old(sharpeRatio)
      ensures priceLog == old(priceLog) && signalLog == old(signalLog) && symbolPrices == old(symbolPrices)
      ensures ticks == old(ticks) && signals == old(signals) && closes == old(closes)
    {
      latestPnl := Some(state);
      tradeHistory := KeepLast(durableTrades, HistoryTail);
      var parsed := ParseReturns(durableReturns);
      if parsed.Some? {
        sharpeRatio := SharpeRatio(parsed.value, sqrt);
      }
    }

    /** One pass of the loop body. A non-message event or an undecodable payload
        changes no view. */
    method Handle(m: Inbound, durableTrades: seq<TradeExecutor.TradeRecord>,
                  durableReturns: seq<RawReturn>, sqrt: real -> real)
      requires Valid() && IsSqrt(sqrt)
      modifies this
      ensures Valid()
      ensures (m.NotAMessage? || m.Undecodable?) ==> unchanged(this)
      ensures m.PriceMsg? ==>
        var tick := m.tick;
        && ticks == old(ticks) + [tick]
        && priceLog == AppendLeft(old(priceLog), tick, LogCap)
        && (Truthy(tick.s) && tick.c.Some? ==>
              && closes == old(closes)[tick.s.value := old(ClosesOf(tick.s.value)) + [tick.c.value]]
              && symbolPrices == old(symbolPrices)[tick.s.value := Append(old(SeriesOf(tick.s.value)), tick.c.value, SeriesCap)])
        && (!(Truthy(tick.s) && tick.c.Some?) ==> symbolPrices == old(symbolPrices) && closes == old(closes))
        && signalLog == old(signalLog) && signals == old(signals) && latestPnl == old(latestPnl)
        && tradeHistory == old(tradeHistory) && sharpeRatio == old(sharpeRatio)
      ensures m.SignalMsg? ==>
        && signals == old(signals) + [m.signal]
        && signalLog == AppendLeft(old(signalLog), m.signal, LogCap)
        && priceLog == old(priceLog) && ticks == old(ticks) && latestPnl == old(latestPnl)
        && symbolPrices == old(symbolPrices) && closes == old(closes)
        && tradeHistory == old(tradeHistory) && sharpeRatio == old(sharpeRatio)
      ensures m.PnlMsg? ==>
        && latestPnl == Some(m.state)
        && tradeHistory == KeepLast(durableTrades, HistoryTail)
        && (ParseReturns(durableReturns).Some? ==> sharpeRatio == SharpeRatio(ParseReturns(durableReturns).value, sqrt))
        && (ParseReturns(durableReturns).None? ==> sharpeRatio == old(sharpeRatio))
        && priceLog == old(priceLog) && signalLog == old(signalLog) && symbolPrices == old(symbolPrices)
        && ticks == old(ticks) && signals == old(signals) && closes == old(closes)
    {
      match m
      case NotAMessage =>
      case Undecodable =>
      case PriceMsg(tick) => OnPrice(tick);
      case SignalMsg(signal) => OnSignal(signal);
      case PnlMsg(state) => OnPnl(state, durableTrades, durableReturns, sqrt);
    }

    /** The page handler's read: a copy of every view, with the bounds the views
        keep. */
    method Read() returns (snap: Snapshot)
      requires Valid()
      ensures snap == Snapshot(priceLog, signalLog, latestPnl, tradeHistory, sharpeRatio, symbolPrices)
      ensures |snap.prices| <= LogCap && |snap.signals| <= LogCap && |snap.history| <= HistoryTail
      ensures forall s :: s in snap.charts ==> |snap.charts[s]| <= SeriesCap
    {
      snap := Snapshot(priceLog, signalLog, latestPnl, tradeHistory, sharpeRatio, symbolPrices);
    }
  }
}
