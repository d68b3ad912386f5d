/** The decoded payloads that travel on the bus channels shared by the services:
    `price_updates` ticks and `trade_signals` signals. */
module Messages {
  import opened Wrappers

  /** A price tick as the consumers read it: only the symbol `s` and the close
      `c` matter to the core; `None` stands for a key the payload lacks. */
  datatype PriceTick = PriceTick(s: Option<string>, c: Option<real>)

  /** The three decisions a strategy can publish. */
  datatype Action = Buy | Sell | Hold

  /** The text a signal carries for an action on the wire. */
  function ActionName(a: Action): (name: string)
    ensures name in {"BUY", "SELL", "HOLD"}
  {
    match a
    case Buy => "BUY"
    case Sell => "SELL"
    case Hold => "HOLD"
  }

  /** Distinct actions travel as distinct words, so a consumer can tell them apart. */
  lemma ActionNameInjective(a: Action, b: Action)
    ensures ActionName(a) == ActionName(b) <==> a == b
  {
  }

  /** A signal as published on `trade_signals`. */
  datatype TradeSignal = TradeSignal(strategy: string, symbol: string, signal: Action, confidence: real)
}
