/** What the simulated broker's prices, profits and exits mean, in quotes and fields
    (services/execution/broker.py, `PaperBrokerAdapter`). */
module BrokerMeaning {
  import opened Prelude
  import opened PaperBroker
  import Indicators

  // ---------- profit and price ----------

  /** A long earns what the price rises, a short what it falls. */
  ghost predicate HasPnl(p: Position, exit: real, contractSize: real, pnl: real) {
    match p.direction
    case Long => pnl == (exit - p.entry) * contractSize * p.volume
    case Short => pnl == (p.entry - exit) * contractSize * p.volume
  }

  lemma PnlIs(p: Position, exit: real, contractSize: real)
    ensures HasPnl(p, exit, contractSize, Pnl(p, exit, contractSize))
  {
    assert 1.0 * (exit - p.entry) == exit - p.entry;
    assert -1.0 * (exit - p.entry) == p.entry - exit;
  }

  /** The middle of a quote with both sides, the one side of another, and no price without a quote. */
  ghost predicate IsLastPrice(prices: Prices, symbol: string, price: Option<real>) {
    if symbol !in prices then price == None
    else
      var q := prices[symbol];
      if q.bid == 0.0 && q.ask == 0.0 then price == None
      else price.Some? && (if q.ask == 0.0 then price.value == q.bid
                           else if q.bid == 0.0 then price.value == q.ask
                           else price.value - q.bid == q.ask - price.value)
  }

  lemma LastPriceIs(prices: Prices, symbol: string)
    ensures IsLastPrice(prices, symbol, LastPrice(prices, symbol))
  {
  }

  // ---------- when a position leaves the book ----------

  /** A long's target is met by the ask, a short's by the bid; no target, or one of zero, never is. */
  ghost predicate MeetsTarget(p: Position, prices: Prices) {
    p.symbol in prices && p.tp.Some? && p.tp.value != 0.0
    && match p.direction
       case Long => prices[p.symbol].ask >= p.tp.value
       case Short => prices[p.symbol].bid <= p.tp.value
  }

  /** A long's stop is met by the bid, a short's by the ask. */
  ghost predicate MeetsStop(p: Position, prices: Prices) {
    p.symbol in prices && p.sl.Some? && p.sl.value != 0.0
    && match p.direction
       case Long => prices[p.symbol].bid <= p.sl.value
       case Short => prices[p.symbol].ask >= p.sl.value
  }

  /** The trade closes the position at this price, for this reason, with the profit of that. */
  ghost predicate ClosedAt(p: Position, exit: real, reason: CloseReason, contractSize: real, c: ClosedTrade) {
    && c.ticket == p.ticket && c.symbol == p.symbol && c.direction == p.direction && c.volume == p.volume && c.entry == p.entry
    && c.sl == p.sl && c.tp == p.tp && c.closePrice == Round2(exit) && c.reason == reason && HasPnl(p, exit, contractSize, c.pnl)
  }

  /** At the target if that is met, and otherwise at the stop. */
  ghost predicate Leaves(p: Position, prices: Prices, contractSize: real, c: ClosedTrade) {
    || (MeetsTarget(p, prices) && ClosedAt(p, p.tp.value, TakeProfit, contractSize, c))
    || (!MeetsTarget(p, prices) && MeetsStop(p, prices) && ClosedAt(p, p.sl.value, StopLoss, contractSize, c))
  }

  lemma OneProfit(p: Position, exit: real, reason: CloseReason, contractSize: real, c: ClosedTrade)
    ensures ClosedAt(p, exit, reason, contractSize, c) <==> c == TradeOf(p, exit, reason, contractSize)
  {
    PnlIs(p, exit, contractSize);
    hide Pnl, Round2;
  }

  lemma ExitIs(p: Position, prices: Prices, contractSize: real, c: ClosedTrade)
    ensures ExitOf(p, prices).None? <==> !MeetsTarget(p, prices) && !MeetsStop(p, prices)
    ensures Leaves(p, prices, contractSize, c)
       <==> ExitOf(p, prices).Some? && c == TradeOf(p, ExitOf(p, prices).value.0, ExitOf(p, prices).value.1, contractSize)
  {
    hide ClosedAt, TradeOf;
    if p.tp.Some? {
      OneProfit(p, p.tp.value, TakeProfit, contractSize, c);
    }
    if p.sl.Some? {
      OneProfit(p, p.sl.value, StopLoss, contractSize, c);
    }
  }

  lemma {:induction false} RemainingAre(ps: seq<Position>, prices: Prices, p: Position)
    ensures p in Remaining(ps, prices) <==> p in ps && !MeetsTarget(p, prices) && !MeetsStop(p, prices)
  {
    hide ExitOf, MeetsTarget, MeetsStop;
    if ps != [] {
      var front, last := ps[..|ps| - 1], ps[|ps| - 1];
      RemainingAre(front, prices, p);
      StaysIff(last, prices);
      assert ps == front + [last];
    }
  }

  lemma StaysIff(p: Position, prices: Prices)
    ensures ExitOf(p, prices).None? <==> !MeetsTarget(p, prices) && !MeetsStop(p, prices)
  {
  }

  lemma {:induction false} SettledAre(ps: seq<Position>, prices: Prices, contractSize: real, c: ClosedTrade)
    ensures c in Settled(ps, prices, contractSize) <==> exists p :: p in ps && Leaves(p, prices, contractSize, c)
  {
    hide ExitOf, Leaves, TradeOf;
    if ps != [] {
      var front, last := ps[..|ps| - 1], ps[|ps| - 1];
      SettledAre(front, prices, contractSize, c);
      ExitIs(last, prices, contractSize, c);
      assert ps == front + [last];
    }
  }

  /** Evaluating exits against quotes: a position stays exactly while neither its target nor its stop is
      met, and what is settled are exactly the others, at the target if that is met and otherwise at
      the stop. */
  lemma ExitIff(b: Book, prices: Prices)
    ensures var after, settled := AfterExits(b, prices), Settled(b.positions, prices, b.contractSize);
      && (forall p :: p in after.positions <==> p in b.positions && !MeetsTarget(p, prices) && !MeetsStop(p, prices))
      && after.closed == b.closed + settled
      && (forall c :: c in settled <==> exists p :: p in b.positions && Leaves(p, prices, b.contractSize, c))
      && after.balance == b.balance + Indicators.Total(Profits(settled))
  {
    hide Leaves, MeetsTarget, MeetsStop, Remaining, Settled, Indicators.Total;
    forall p: Position
      ensures p in Remaining(b.positions, prices) <==> p in b.positions && !MeetsTarget(p, prices) && !MeetsStop(p, prices)
    {
      RemainingAre(b.positions, prices, p);
    }
    forall c: ClosedTrade
      ensures c in Settled(b.positions, prices, b.contractSize)
         <==> exists p :: p in b.positions && Leaves(p, prices, b.contractSize, c)
    {
      SettledAre(b.positions, prices, b.contractSize, c);
    }
    SumIsTotal(Settled(b.positions, prices, b.contractSize));
  }

  function Profits(cs: seq<ClosedTrade>): (r: seq<real>)
    ensures |r| == |cs|
  {
    seq(|cs|, i requires 0 <= i < |cs| => cs[i].pnl)
  }

  lemma {:induction false} SumIsTotal(cs: seq<ClosedTrade>)
    ensures SumPnl(cs) == Indicators.Total(Profits(cs))
  {
    if cs == [] {
      Indicators.TotalOfNone();
    } else {
      hide Indicators.Total;
      var front, last := cs[..|cs| - 1], cs[|cs| - 1];
      SumIsTotal(front);
      Indicators.TotalSnoc(Profits(front), last.pnl);
      assert Profits(cs) == Profits(front) + [last.pnl];
    }
  }

  /** A close takes the one position out, books the trade of it and moves the balance by its profit. */
  lemma CloseIs(b: Book, i: nat, exit: real, reason: CloseReason)
    requires i < |b.positions|
    ensures var after := AfterClose(b, i, exit, reason);
      && after.positions == b.positions[..i] + b.positions[i + 1..]
      && |after.closed| == |b.closed| + 1 && after.closed[..|b.closed|] == b.closed
      && ClosedAt(b.positions[i], exit, reason, b.contractSize, after.closed[|b.closed|])
      && after.balance == b.balance + after.closed[|b.closed|].pnl && after.contractSize == b.contractSize
  {
    hide ClosedAt, TradeOf;
    OneProfit(b.positions[i], exit, reason, b.contractSize, TradeOf(b.positions[i], exit, reason, b.contractSize));
  }

  // ---------- equity ----------

  ghost predicate AreProfits(ps: seq<Position>, prices: Prices, contractSize: real, profits: seq<real>) {
    && |profits| == |ps|
    && forall k :: 0 <= k < |ps| ==>
         exists price :: IsLastPrice(prices, ps[k].symbol, Some(price)) && HasPnl(ps[k], price, contractSize, profits[k])
  }

  /** The equity is the balance and every open position's profit at its last price; it is unknown
      exactly when some position has no price. */
  lemma EquityIs(b: Book, prices: Prices)
    ensures Equity(b, prices).None? <==> exists k :: 0 <= k < |b.positions| && IsLastPrice(prices, b.positions[k].symbol, None)
    ensures Equity(b, prices).Some? ==>
              exists profits :: AreProfits(b.positions, prices, b.contractSize, profits)
                                && Equity(b, prices).value == b.balance + Indicators.Total(profits)
  {
    hide AreProfits, Indicators.Total, IsLastPrice;
    UnrealizedIs(b.positions, prices, b.contractSize);
  }

  lemma OnePrice(prices: Prices, symbol: string)
    ensures LastPrice(prices, symbol).None? <==> IsLastPrice(prices, symbol, None)
  {
  }

  lemma {:induction false} UnrealizedIs(ps: seq<Position>, prices: Prices, contractSize: real)
    ensures var u := Unrealized(ps, prices, contractSize);
      && (u.None? <==> exists k :: 0 <= k < |ps| && IsLastPrice(prices, ps[k].symbol, None))
      && (u.Some? ==> exists profits :: AreProfits(ps, prices, contractSize, profits) && u.value == Indicators.Total(profits))
  {
    hide LastPrice, IsLastPrice, Pnl, HasPnl, Indicators.Total;
    if ps == [] {
      Indicators.TotalOfNone();
      assert AreProfits(ps, prices, contractSize, []);
    } else {
      var front, last := ps[..|ps| - 1], ps[|ps| - 1];
      UnrealizedIs(front, prices, contractSize);
      OnePrice(prices, last.symbol);
      assert forall k :: 0 <= k < |front| ==> front[k] == ps[k];
      var price := LastPrice(prices, last.symbol);
      if Unrealized(front, prices, contractSize).Some? && price.Some? {
        var profits :| AreProfits(front, prices, contractSize, profits)
                       && Unrealized(front, prices, contractSize).value == Indicators.Total(profits);
        var pnl := Pnl(last, price.value, contractSize);
        LastPriceIs(prices, last.symbol);
        PnlIs(last, price.value, contractSize);
        Indicators.TotalSnoc(profits, pnl);
        assert AreProfits(ps, prices, contractSize, profits + [pnl]);
      }
    }
  }
}
