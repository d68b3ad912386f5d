/** The mean-reversion strategy (services/strategies/meanrev/main.py): per symbol,
    a window of the most recent 20 closes; once a symbol's window is full, every
    tick is classified against the window's mean and a signal is published on
    `trade_signals`. */
module MeanReversion {
  import opened Wrappers
  import opened Messages
  import opened Stats
  import opened Windows

  const StrategyName: string := "meanrev"
  /** `MAX_WINDOW`. */
  const MaxWindow: nat := 20

  /** What the subscription loop hands to its body: an event that is not a
      `message`, a payload that does not decode, or a decoded bar from
      `price_updates`. */
  datatype Inbound = NotAMessage | Undecodable | Bar(tick: PriceTick)

  /** BUY below 98% of the mean, else SELL above 102% of it, else HOLD; both
      comparisons strict. */
  function Classify(price: real, mean: real): (a: Action)
  {
    if price < mean * 0.98 then Buy
    else if price > mean * 1.02 then Sell
    else Hold
  }

  /** For a non-negative mean the two thresholds are ordered, so BUY and SELL are
      each decided by their own comparison alone, and a price exactly on a
      threshold is HOLD. */
  lemma ClassifyBands(price: real, mean: real)
    requires mean >= 0.0
    ensures Classify(price, mean) == Buy <==> price < mean * 0.98
    ensures Classify(price, mean) == Sell <==> price > mean * 1.02
    ensures Classify(price, mean) == Hold <==> mean * 0.98 <= price <= mean * 1.02
    ensures Classify(mean * 1.02, mean) == Hold && Classify(mean * 0.98, mean) == Hold
  {
  }

  /** The decision for a window that already holds the current close: nothing
      while the window is not full, otherwise the classification of the close
      against the window's mean. */
  function Decide(window: seq<real>, price: real): (d: Option<Action>)
    ensures d.Some? <==> |window| >= MaxWindow
    ensures d.Some? ==> d.value == Classify(price, Sum(window) / |window| as real)
  {
    if |window| >= MaxWindow then Some(Classify(price, Mean(window))) else None
  }

  /** The signal published for a decision. */
  function SignalFor(symbol: string, a: Action): (sig: TradeSignal)
    ensures sig.strategy == "meanrev" && sig.confidence == 1.0
    ensures sig.symbol == symbol && sig.signal == a
  {
    TradeSignal(StrategyName, symbol, a, 1.0)
  }

  /** `count` copies of one price. */
  function Copies(p: real, count: nat): (s: seq<real>)
    ensures |s| == count && forall i :: 0 <= i < count ==> s[i] == p
  {
    seq(count, _ => p)
  }

  /** The window after a tick at `x` arrives on a full window of copies of `p`. */
  lemma MeanAfterCopies(p: real, x: real)
    ensures Append(Copies(p, MaxWindow), x, MaxWindow) == Copies(p, MaxWindow - 1) + [x]
    ensures Mean(Copies(p, MaxWindow - 1) + [x]) == (19.0 * p + x) / 20.0
  {
    assert Copies(p, MaxWindow)[1..] == Copies(p, MaxWindow - 1);
    SumConcat(Copies(p, MaxWindow - 1), [x]);
    SumOfCopies(Copies(p, MaxWindow - 1), p);
    assert Sum([x]) == x by {
      assert [x][..0] == [];
    }
  }

  /** A full window of copies of a positive price P: a tick at 0.97 P is a BUY,
      at 1.03 P a SELL, and at P itself a HOLD. */
  lemma ClassifyAfterFlatWindow(p: real)
    requires p > 0.0
    ensures Decide(Append(Copies(p, MaxWindow), 0.97 * p, MaxWindow), 0.97 * p) == Some(Buy)
    ensures Decide(Append(Copies(p, MaxWindow), 1.03 * p, MaxWindow), 1.03 * p) == Some(Sell)
    ensures Decide(Append(Copies(p, MaxWindow), p, MaxWindow), p) == Some(Hold)
  {
    MeanAfterCopies(p, 0.97 * p);
    MeanAfterCopies(p, 1.03 * p);
    MeanAfterCopies(p, p);
  }

  /** The evaluator process: `price_window` (a `defaultdict(list)`, so a symbol
      gets a window the first time one of its ticks is appended) and, as ghost
      state, every close each symbol has delivered. */
  class Evaluator {
    var windows: map<string, seq<real>>
    ghost var seen: map<string, seq<real>>

    /** Each symbol's window is exactly the newest `MaxWindow` closes it delivered,
        in arrival order. */
    ghost predicate Valid()
      reads this
    {
      && windows.Keys == seen.Keys
      && forall s :: s in windows ==> windows[s] == KeepLast(seen[s], MaxWindow)
    }

    /** The window `price_window[s]` reads, empty for a symbol not seen yet. */
    function WindowOf(s: string): seq<real>
      reads this`windows
    {
      if s in windows then windows[s] else []
    }

    ghost function SeenOf(s: string): seq<real>
      reads this`seen
    {
      if s in seen then seen[s] else []
    }

    constructor ()
      ensures Valid() && windows == map[] && seen == map[]
    {
      windows := map[];
      seen := map[];
    }

    /** One pass of the loop body. A message without `s` or `c` fails before the
        append and changes nothing; otherwise the close joins its symbol's window
        (evicting the oldest past `MaxWindow`), every other window stays as it
        was, and a signal comes out exactly when the symbol has delivered at
        least `MaxWindow` closes. */
    method OnMessage(m: Inbound) returns (out: Option<TradeSignal>)
      requires Valid()
      modifies this
      ensures Valid()
      ensures !(m.Bar? && m.tick.s.Some? && m.tick.c.Some?) ==>
        windows == old(windows) && seen == old(seen) && out == None
      ensures m.Bar? && m.tick.s.Some? && m.tick.c.Some? ==>
        var s, c := m.tick.s.value, m.tick.c.value;
        && seen == old(seen)[s := old(SeenOf(s)) + [c]]
        && windows == old(windows)[s := Append(old(WindowOf(s)), c, MaxWindow)]
        && windows[s] == KeepLast(seen[s], MaxWindow)
        && |windows[s]| <= MaxWindow
        && (forall t :: t != s ==> WindowOf(t) == old(WindowOf(t)))
        && (out.Some? <==> |seen[s]| >= MaxWindow)
        && (out.Some? ==> out.value == SignalFor(s, Classify(c, Mean(windows[s]))))
        && (out.Some? <==> Decide(windows[s], c).Some?)
        && (out.Some? ==> out.value.signal == Decide(windows[s], c).value)
    {
      if !(m.Bar? && m.tick.s.Some? && m.tick.c.Some?) {
        return None;
      }
      var symbol, price := m.tick.s.value, m.tick.c.value;
      var window := Slide(symbol, price);

      if |window| >= MaxWindow {
        var mean := Sum(window) / |window| as real;
        var signal: Action;
        if price < mean * 0.98 {
          signal := Buy;
        } else if price > mean * 1.02 {
          signal := Sell;
        } else {
          signal := Hold;
        }
        out := Some(TradeSignal(StrategyName, symbol, signal, 1.0));
      } else {
        out := None;
      }
    }

    /** `price_window[symbol].append(price)` and, past `MaxWindow`, `pop(0)`. */
    method Slide(symbol: string, price: real) returns (window: seq<real>)
      requires Valid()
      modifies this
      ensures Valid()
      ensures seen == old(seen)[symbol := old(SeenOf(symbol)) + [price]]
      ensures windows == old(windows)[symbol := Append(old(WindowOf(symbol)), price, MaxWindow)]
      ensures window == windows[symbol] == KeepLast(seen[symbol], MaxWindow)
      ensures forall t :: t != symbol ==> WindowOf(t) == old(WindowOf(t))
    {
      window := if symbol in windows then windows[symbol] else [];
      window := window + [price];
      if |window| > MaxWindow {
        window := window[1..];
      }
      ghost var past := SeenOf(symbol);
      assert window == Append(WindowOf(symbol), price, MaxWindow);
      AppendKeepsNewest(past, price, MaxWindow);
      windows := windows[symbol := window];
      seen := seen[symbol := past + [price]];
    }
  }
}
