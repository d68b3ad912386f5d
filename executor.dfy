/** The mock trade executor (services/trade-executor-mock/main.py): a portfolio
    that turns signals on `aggregated_signals` into one-unit fills at the latest
    price seen on `price_updates`, publishes its whole state on `executor_pnl`
    and appends one record per processed signal to the durable `trade_history`
    list, which it trims to the newest 100 entries. */
module TradeExecutor {
  import opened Wrappers
  import opened Messages
  import opened Windows

  const StartingCash: real := 100000.0
  /** `LTRIM trade_history -100 -1` keeps this many entries. */
  const DurableCap: nat := 100

  /** One entry of the trade log: the signal's `symbol` and `signal` fields as
      they arrived (`None` when the payload lacks them), the time of processing
      and the price used. */
  datatype TradeRecord = TradeRecord(symbol: Option<string>, signal: Option<string>, time: string, price: real)

  /** The executor's `state` record. `entryPrice` is `None` when no entry price is
      held (Python's `None`). */
  datatype Portfolio = Portfolio(
    cash: real,
    position: int,
    entryPrice: Option<real>,
    pnl: real,
    drawdown: real,
    history: seq<TradeRecord>)

  /** What the executor's subscription loop can hand to its body: an event that is
      not a `message` (a subscribe confirmation), a payload that does not decode,
      a decoded tick from `price_updates`, or a decoded signal from
      `aggregated_signals` with its `symbol` and `signal` fields. */
  datatype Inbound =
    | NotAMessage
    | Undecodable
    | PriceUpdate(tick: PriceTick)
    | AggregatedSignal(symbol: Option<string>, signal: Option<string>)

  /** The state at process start. */
  function Initial(): (p: Portfolio)
    ensures p.cash == StartingCash && p.position == 0 && p.entryPrice == None
    ensures p.pnl == 0.0 && p.drawdown == 0.0 && p.history == []
  {
    Portfolio(StartingCash, 0, None, 0.0, 0.0, [])
  }

  function Min(a: real, b: real): real {
    if a <= b then a else b
  }

  /** The guard of the BUY branch. */
  predicate BuyAccepted(p: Portfolio, signal: Option<string>, price: real) {
    signal == Some("BUY") && p.cash >= price
  }

  /** The guard of the SELL branch (reached only when the BUY guard fails, which
      it always does for a "SELL" signal). */
  predicate SellAccepted(p: Portfolio, signal: Option<string>) {
    signal == Some("SELL") && p.position > 0 && p.entryPrice.Some?
  }

  predicate Accepted(p: Portfolio, signal: Option<string>, price: real) {
    BuyAccepted(p, signal, price) || SellAccepted(p, signal)
  }

  /** The words a strategy publishes reach the right branch: "BUY" is accepted
      exactly when the cash covers the price, "SELL" exactly when a unit is held
      against a recorded entry, and "HOLD" never. */
  lemma ActionWordsSelectBranch(p: Portfolio, a: Action, price: real)
    ensures BuyAccepted(p, Some(ActionName(a)), price) <==> a == Buy && p.cash >= price
    ensures SellAccepted(p, Some(ActionName(a))) <==> a == Sell && p.position > 0 && p.entryPrice.Some?
    ensures a == Hold ==> !Accepted(p, Some(ActionName(a)), price)
  {
    ActionNameInjective(a, Buy);
    ActionNameInjective(a, Sell);
  }

  /** The `if/elif/else` on the signal: a one-unit buy, a one-unit sell that
      realises the gain against the single recorded entry price, or nothing. */
  function Execute(p: Portfolio, symbol: Option<string>, signal: Option<string>, time: string, price: real): Portfolio
  {
    var record := TradeRecord(symbol, signal, time, price);
    if BuyAccepted(p, signal, price) then
      p.(position := p.position + 1, cash := p.cash - price, entryPrice := Some(price),
         history := p.history + [record])
    else if SellAccepted(p, signal) then
      p.(position := p.position - 1, cash := p.cash + price,
         pnl := p.pnl + (price - p.entryPrice.value), entryPrice := None,
         history := p.history + [record])
    else
      p
  }

  /** The drawdown update that follows the branch, for every processed signal. */
  function TrackDrawdown(p: Portfolio): Portfolio {
    p.(drawdown := Min(p.drawdown, if p.pnl < 0.0 then p.pnl else 0.0))
  }

  /** The whole state change one processed signal makes. */
  function ProcessSignal(p: Portfolio, symbol: Option<string>, signal: Option<string>, time: string, price: real): (r: Portfolio)
    ensures p.position >= 0 ==> r.position >= 0
    ensures p.cash >= 0.0 && price >= 0.0 ==> r.cash >= 0.0
    ensures r.drawdown <= p.drawdown && r.drawdown <= 0.0 && r.drawdown <= r.pnl
    ensures r.drawdown == Min(p.drawdown, Min(r.pnl, 0.0))
    ensures Accepted(p, signal, price) <==> r.history == p.history + [TradeRecord(symbol, signal, time, price)]
    ensures !Accepted(p, signal, price) ==> r == p.(drawdown := r.drawdown)
  {
    TrackDrawdown(Execute(p, symbol, signal, time, price))
  }

  /** An accepted BUY: one more unit, its price paid from cash, the entry price
      overwritten (not averaged), one trade logged. */
  lemma BuyEffect(p: Portfolio, symbol: Option<string>, time: string, price: real)
    requires p.cash >= price
    ensures var r := ProcessSignal(p, symbol, Some("BUY"), time, price);
      && r.position == p.position + 1
      && r.cash == p.cash - price
      && r.entryPrice == Some(price)
      && r.pnl == p.pnl
      && r.history == p.history + [TradeRecord(symbol, Some("BUY"), time, price)]
  {
  }

  /** An accepted SELL: one unit fewer, its price added to cash, the gain against
      the entry price realised, the entry price cleared, one trade logged. */
  lemma SellEffect(p: Portfolio, symbol: Option<string>, time: string, price: real)
    requires p.position > 0 && p.entryPrice.Some?
    ensures var r := ProcessSignal(p, symbol, Some("SELL"), time, price);
      && r.position == p.position - 1
      && r.cash == p.cash + price
      && r.pnl == p.pnl + (price - p.entryPrice.value)
      && r.entryPrice == None
      && r.history == p.history + [TradeRecord(symbol, Some("SELL"), time, price)]
  {
  }

  /** The single entry price is cleared by the first SELL: after two BUYs and one
      SELL a unit is still held, yet the next SELL is rejected. */
  lemma SecondSellAfterTwoBuysRejected(p: Portfolio, s: Option<string>, t: string, b1: real, b2: real, s1: real, s2: real)
    requires p.position >= 0 && b1 <= p.cash && b2 <= p.cash - b1
    ensures var q := ProcessSignal(ProcessSignal(ProcessSignal(p, s, Some("BUY"), t, b1), s, Some("BUY"), t, b2), s, Some("SELL"), t, s1);
      && q.position == p.position + 1
      && q.entryPrice == None
      && !Accepted(q, Some("SELL"), s2)
  {
  }

  /** The worst realised PnL among the states published so far, and 0 before any. */
  function Worst(published: seq<Portfolio>): (w: real)
    ensures w <= 0.0
    ensures forall i :: 0 <= i < |published| ==> w <= published[i].pnl
    ensures w == 0.0 || exists i :: 0 <= i < |published| && w == published[i].pnl
    decreases |published|
  {
    if published == [] then 0.0
    else Min(Worst(published[..|published| - 1]), published[|published| - 1].pnl)
  }

  /** Processing a signal keeps the drawdown equal to the worst published PnL:
      the drawdown tracks the realised trough and later gains never raise it. */
  lemma DrawdownIsWorstPublishedPnl(published: seq<Portfolio>, p: Portfolio, symbol: Option<string>, signal: Option<string>, time: string, price: real)
    requires p.drawdown == Worst(published)
    ensures var r := ProcessSignal(p, symbol, signal, time, price);
      r.drawdown == Worst(published + [r])
  {
    var r := ProcessSignal(p, symbol, signal, time, price);
    assert (published + [r])[..|published|] == published;
  }

  /** A worked example: from the starting state a BUY at 100 leaves
      99900 in cash and one unit held at 100; selling it at 110 realises 10,
      which leaves the drawdown at 0. */
  lemma RoundTripExample(s: Option<string>, t: string)
    ensures var b := ProcessSignal(Initial(), s, Some("BUY"), t, 100.0);
      && b.cash == 99900.0 && b.position == 1 && b.entryPrice == Some(100.0)
      && var q := ProcessSignal(b, s, Some("SELL"), t, 110.0);
      && q.pnl == 10.0 && q.position == 0 && q.entryPrice == None && q.drawdown == 0.0
  {
  }

  /** A loss of 50 followed by a gain of 40 leaves the drawdown at -50. */
  lemma DrawdownSurvivesRecovery(s: Option<string>, t: string)
    ensures var a := ProcessSignal(Initial(), s, Some("BUY"), t, 100.0);
      var b := ProcessSignal(a, s, Some("SELL"), t, 50.0);
      var c := ProcessSignal(b, s, Some("BUY"), t, 100.0);
      var d := ProcessSignal(c, s, Some("SELL"), t, 140.0);
      b.pnl == -50.0 && d.pnl == -10.0 && d.drawdown == -50.0
  {
  }

  /** The durable list after this process appended `appended` to the `stored`
      entries it found, trimming after every append. */
  function DurableAfter(stored: seq<TradeRecord>, appended: seq<TradeRecord>): seq<TradeRecord> {
    if appended == [] then stored else KeepLast(stored + appended, DurableCap)
  }

  /** The executor process: the global `state` fields, the global `latest_price`
      (one value shared by every symbol), and as ghost state the two things it
      writes to the outside world, the states it published and the durable
      `trade_history` list. */
  class Executor {
    var cash: real
    var position: int
    var entryPrice: Option<real>
    var pnl: real
    var drawdown: real
    var history: seq<TradeRecord>
    var latestPrice: Option<real>

    /** Every state published on `executor_pnl`, oldest first. */
    ghost var published: seq<Portfolio>
    /** The durable `trade_history` list. */
    ghost var durable: seq<TradeRecord>
    /** `trade_history` as it was when the process started. */
    ghost const stored: seq<TradeRecord>
    /** Every record this process appended to `trade_history`, oldest first. */
    ghost var appended: seq<TradeRecord>

    function State(): Portfolio
      reads this`cash, this`position, this`entryPrice, this`pnl, this`drawdown, this`history
    {
      Portfolio(cash, position, entryPrice, pnl, drawdown, history)
    }

    ghost predicate Valid()
      reads this
    {
      && position >= 0
      && drawdown == Worst(published)
      && (published != [] ==> published[|published| - 1] == State())
      && |appended| == |published|
      && durable == DurableAfter(stored, appended)
    }

    /** Process start; `trade_history` may hold entries from earlier runs. */
    constructor (ghost existing: seq<TradeRecord>)
      ensures Valid()
      ensures State() == Initial() && latestPrice == None
      ensures published == [] && appended == [] && durable == existing && stored == existing
    {
      cash, position, entryPrice, pnl, drawdown, history := StartingCash, 0, None, 0.0, 0.0, [];
      latestPrice := None;
      published, appended := [], [];
      stored := existing;
      durable := existing;
    }

    /** A tick on `price_updates`: only `latest_price` changes, to the tick's close. */
    method OnPrice(tick: PriceTick)
      requires Valid()
      modifies this
      ensures Valid()
      ensures latestPrice == tick.c
      ensures State() == old(State())
      ensures published == old(published) && durable == old(durable) && appended == old(appended)
    {
      latestPrice := tick.c;
    }

    /** A signal on `aggregated_signals`. Without a price it is skipped with no
        effect at all; otherwise the portfolio takes one step, its state is
        published and one record is appended to `trade_history`, whether the
        signal was accepted or not. */
    method OnSignal(symbol: Option<string>, signal: Option<string>, now: string)
      requires Valid()
      modifies this
      ensures Valid()
      ensures latestPrice == old(latestPrice)
      ensures old(latestPrice) == None ==> unchanged(this)
      ensures old(latestPrice).Some? ==>
        var price := old(latestPrice).value;
        var record := TradeRecord(symbol, signal, now, price);
        && State() == ProcessSignal(old(State()), symbol, signal, now, price)
        && published == old(published) + [State()]
        && appended == old(appended) + [record]
        && durable == KeepLast(old(durable) + [record], DurableCap)
      ensures |published| > 0 ==> |durable| <= DurableCap
    {
      if latestPrice == None {
        return;
      }
      FillAtLatestPrice(symbol, signal, now);
    }

    /** The part of the signal handler that runs once a price is known. */
    method FillAtLatestPrice(symbol: Option<string>, signal: Option<string>, now: string)
      requires Valid() && latestPrice.Some?
      modifies this
      ensures Valid()
      ensures latestPrice == old(latestPrice)
      ensures
        var price := old(latestPrice).value;
        var record := TradeRecord(symbol, signal, now, price);
        && State() == ProcessSignal(old(State()), symbol, signal, now, price)
        && published == old(published) + [State()]
        && appended == old(appended) + [record]
        && durable == KeepLast(old(durable) + [record], DurableCap)
    {
      var price := latestPrice.value;
      DrawdownIsWorstPublishedPnl(published, State(), symbol, signal, now, price);
      Step(symbol, signal, now, price);
      Publish(TradeRecord(symbol, signal, now, price));
    }

    /** The portfolio's part of the signal handler, on the fields in place: the
        `if/elif/else` on the signal, then the drawdown update. */
    method Step(symbol: Option<string>, signal: Option<string>, now: string, price: real)
      modifies this`cash, this`position, this`entryPrice, this`pnl, this`drawdown, this`history
      ensures State() == ProcessSignal(old(State()), symbol, signal, now, price)
      ensures published == old(published) && appended == old(appended) && durable == old(durable)
    {
      var record := TradeRecord(symbol, signal, now, price);
      if signal == Some("BUY") && cash >= price {
        position := position + 1;
        cash := cash - price;
        entryPrice := Some(price);
        history := history + [record];
      } else if signal == Some("SELL") && position > 0 && entryPrice.Some? {
        position := position - 1;
        cash := cash + price;
        var gain := price - entryPrice.value;
        pnl := pnl + gain;
        entryPrice := None;
        history := history + [record];
      }
      drawdown := Min(drawdown, if pnl < 0.0 then pnl else 0.0);
    }

    /** The state goes out on `executor_pnl` and the record onto `trade_history`,
        which is then trimmed to its newest `DurableCap` entries. */
    ghost method Publish(record: TradeRecord)
      requires position >= 0
      requires drawdown == Worst(published + [State()])
      requires |appended| == |published|
      requires durable == DurableAfter(stored, appended)
      modifies this`published, this`appended, this`durable
      ensures Valid()
      ensures published == old(published) + [State()]
      ensures appended == old(appended) + [record]
      ensures durable == KeepLast(old(durable) + [record], DurableCap)
    {
      published := published + [State()];
      if appended != [] {
        TrimAfterEachAppend(stored + appended, record, DurableCap);
        assert stored + appended + [record] == stored + (appended + [record]);
      }
      appended := appended + [record];
      durable := KeepLast(durable + [record], DurableCap);
    }

    /** One pass of the subscription loop's body. */
    method Handle(m: Inbound, now: string)
      requires Valid()
      modifies this
      ensures Valid()
      ensures (m.NotAMessage? || m.Undecodable?) ==> unchanged(this)
      ensures m.PriceUpdate? ==>
        && latestPrice == m.tick.c && State() == old(State())
        && published == old(published) && durable == old(durable) && appended == old(appended)
      ensures m.AggregatedSignal? ==> latestPrice == old(latestPrice)
      ensures m.AggregatedSignal? && old(latestPrice) == None ==> unchanged(this)
      ensures m.AggregatedSignal? && old(latestPrice).Some? ==>
        var price := old(latestPrice).value;
        var record := TradeRecord(m.symbol, m.signal, now, price);
        && State() == ProcessSignal(old(State()), m.symbol, m.signal, now, price)
        && published == old(published) + [State()]
        && appended == old(appended) + [record]
        && durable == KeepLast(old(durable) + [record], DurableCap)
      ensures |published| > 0 ==> |durable| <= DurableCap
    {
      match m
      case NotAMessage =>
      case Undecodable =>
      case PriceUpdate(tick) => OnPrice(tick);
      case AggregatedSignal(symbol, signal) => OnSignal(symbol, signal, now);
    }
  }
}
