/** The in-memory simulated broker (services/execution/broker.py, `PaperBrokerAdapter`). */
module PaperBroker {
  import opened Prelude

  type Ticket = string

  datatype Quote = Quote(bid: real, ask: real)

  type Prices = map<string, Quote>

  datatype Position = Position(ticket: Ticket, symbol: string, direction: Direction, volume: real, entry: real,
                               sl: Option<real>, tp: Option<real>)

  datatype CloseReason = TakeProfit | StopLoss | OppositeBos | SafetyLine | Manual

  datatype ClosedTrade = ClosedTrade(ticket: Ticket, symbol: string, direction: Direction, volume: real, entry: real,
                                     closePrice: real, sl: Option<real>, tp: Option<real>, reason: CloseReason, pnl: real)

  /** Positions are kept in the order they were opened, as the Python dict keeps them. */
  datatype Book = Book(contractSize: real, balance: real, positions: seq<Position>, closed: seq<ClosedTrade>)

  function Sign(d: Direction): real {
    if d == Long then 1.0 else -1.0
  }

  function Pnl(pos: Position, exit: real, contractSize: real): real {
    Sign(pos.direction) * (exit - pos.entry) * contractSize * pos.volume
  }

  function TradeOf(pos: Position, exit: real, reason: CloseReason, contractSize: real): ClosedTrade {
    ClosedTrade(pos.ticket, pos.symbol, pos.direction, pos.volume, pos.entry, Round2(exit), pos.sl, pos.tp, reason,
                Pnl(pos, exit, contractSize))
  }

  /** The mid of a two-sided quote; a one-sided quote gives its side, none at all no price. */
  function LastPrice(prices: Prices, symbol: string): Option<real> {
    if symbol !in prices then None
    else
      var q := prices[symbol];
      if q.bid != 0.0 && q.ask != 0.0 then Some((q.bid + q.ask) / 2.0)
      else if q.bid != 0.0 then Some(q.bid)
      else if q.ask != 0.0 then Some(q.ask)
      else None
  }

  /** How many positions carry the ticket. */
  function Live(ps: seq<Position>, t: Ticket): nat {
    if ps == [] then 0 else Live(ps[..|ps| - 1], t) + (if ps[|ps| - 1].ticket == t then 1 else 0)
  }

  /** How many closed trades carry the ticket. */
  function Closings(cs: seq<ClosedTrade>, t: Ticket): nat {
    if cs == [] then 0 else Closings(cs[..|cs| - 1], t) + (if cs[|cs| - 1].ticket == t then 1 else 0)
  }

  function Find(ps: seq<Position>, ticket: Ticket): (r: Option<nat>)
    ensures r.Some? ==> r.value < |ps| && ps[r.value].ticket == ticket
    ensures r.None? <==> Live(ps, ticket) == 0
  {
    if ps == [] then None
    else if ps[|ps| - 1].ticket == ticket then Some(|ps| - 1)
    else Find(ps[..|ps| - 1], ticket)
  }

  lemma ClosingsSnoc(cs: seq<ClosedTrade>, c: ClosedTrade, t: Ticket)
    ensures Closings(cs + [c], t) == Closings(cs, t) + (if c.ticket == t then 1 else 0)
    ensures SumPnl(cs + [c]) == SumPnl(cs) + c.pnl
  {
    assert (cs + [c])[..|cs|] == cs;
  }

  lemma LiveSnoc(ps: seq<Position>, p: Position, t: Ticket)
    ensures Live(ps + [p], t) == Live(ps, t) + (if p.ticket == t then 1 else 0)
  {
    assert (ps + [p])[..|ps|] == ps;
  }

  lemma {:induction false} LiveConcat(a: seq<Position>, b: seq<Position>, t: Ticket)
    ensures Live(a + b, t) == Live(a, t) + Live(b, t)
  {
    if b == [] {
      assert a + b == a;
    } else {
      assert (a + b)[..|a + b| - 1] == a + b[..|b| - 1];
      LiveConcat(a, b[..|b| - 1], t);
    }
  }

  lemma {:induction false} ClosingsConcat(a: seq<ClosedTrade>, b: seq<ClosedTrade>, t: Ticket)
    ensures Closings(a + b, t) == Closings(a, t) + Closings(b, t)
  {
    if b == [] {
      assert a + b == a;
    } else {
      assert (a + b)[..|a + b| - 1] == a + b[..|b| - 1];
      ClosingsConcat(a, b[..|b| - 1], t);
    }
  }

  lemma LiveWithout(ps: seq<Position>, i: nat, t: Ticket)
    requires i < |ps|
    ensures Live(ps, t) == Live(RemoveAt(ps, i), t) + (if ps[i].ticket == t then 1 else 0)
  {
    var one := [ps[i]];
    assert ps == ps[..i] + one + ps[i + 1..];
    LiveConcat(ps[..i] + one, ps[i + 1..], t);
    LiveSnoc(ps[..i], ps[i], t);
    LiveConcat(ps[..i], ps[i + 1..], t);
  }

  lemma {:induction false} ClosingsAt(cs: seq<ClosedTrade>, i: nat)
    requires i < |cs|
    ensures Closings(cs, cs[i].ticket) >= 1
  {
    if i < |cs| - 1 {
      ClosingsAt(cs[..|cs| - 1], i);
    }
  }

  lemma {:induction false} FindUnique(ps: seq<Position>, i: nat)
    requires i < |ps| && Live(ps, ps[i].ticket) <= 1
    ensures Find(ps, ps[i].ticket) == Some(i)
  {
    if i < |ps| - 1 {
      LiveWithout(ps[..|ps| - 1], i, ps[i].ticket);
      FindUnique(ps[..|ps| - 1], i);
    }
  }

  function RemoveAt(ps: seq<Position>, i: nat): seq<Position>
    requires i < |ps|
  {
    ps[..i] + ps[i + 1..]
  }

  function SumPnl(cs: seq<ClosedTrade>): real {
    if cs == [] then 0.0 else SumPnl(cs[..|cs| - 1]) + cs[|cs| - 1].pnl
  }

  lemma {:induction false} SumPnlConcat(a: seq<ClosedTrade>, b: seq<ClosedTrade>)
    ensures SumPnl(a + b) == SumPnl(a) + SumPnl(b)
  {
    if b == [] {
      assert a + b == a;
    } else {
      assert (a + b)[..|a + b| - 1] == a + b[..|b| - 1];
      SumPnlConcat(a, b[..|b| - 1]);
    }
  }

  // ---------- exits ----------

  /** A level that is absent or zero is not watched. */
  predicate Watched(level: Option<real>) {
    level.Some? && level.value != 0.0
  }

  /** The target is looked at before the stop; a long's target is met by the ask, its stop by the
      bid, a short's the other way round. */
  function ExitOf(pos: Position, prices: Prices): Option<(real, CloseReason)> {
    if pos.symbol !in prices then None
    else
      var q := prices[pos.symbol];
      if Watched(pos.tp) && (if pos.direction == Long then q.ask >= pos.tp.value else q.bid <= pos.tp.value)
      then Some((pos.tp.value, TakeProfit))
      else if Watched(pos.sl) && (if pos.direction == Long then q.bid <= pos.sl.value else q.ask >= pos.sl.value)
      then Some((pos.sl.value, StopLoss))
      else None
  }

  function Remaining(ps: seq<Position>, prices: Prices): seq<Position> {
    if ps == [] then []
    else
      var p := ps[|ps| - 1];
      Remaining(ps[..|ps| - 1], prices) + (if ExitOf(p, prices).None? then [p] else [])
  }

  function Settled(ps: seq<Position>, prices: Prices, contractSize: real): seq<ClosedTrade> {
    if ps == [] then []
    else
      var p := ps[|ps| - 1];
      var exit := ExitOf(p, prices);
      Settled(ps[..|ps| - 1], prices, contractSize)
      + (if exit.None? then [] else [TradeOf(p, exit.value.0, exit.value.1, contractSize)])
  }

  function AfterExits(b: Book, prices: Prices): Book {
    var settled := Settled(b.positions, prices, b.contractSize);
    Book(b.contractSize, b.balance + SumPnl(settled), Remaining(b.positions, prices), b.closed + settled)
  }

  function AfterClose(b: Book, i: nat, exit: real, reason: CloseReason): Book
    requires i < |b.positions|
  {
    var trade := TradeOf(b.positions[i], exit, reason, b.contractSize);
    Book(b.contractSize, b.balance + trade.pnl, RemoveAt(b.positions, i), b.closed + [trade])
  }

  function WithStop(b: Book, i: nat, sl: real): Book
    requires i < |b.positions|
  {
    b.(positions := b.positions[i := b.positions[i].(sl := Some(sl))])
  }

  function WithPosition(b: Book, p: Position): Book {
    b.(positions := b.positions + [p])
  }

  // ---------- what the book keeps ----------

  /** How often the book has issued the ticket, live or closed. */
  function Issued(b: Book, t: Ticket): nat {
    Live(b.positions, t) + Closings(b.closed, t)
  }

  /** Every ticket is live once or closed once, never both. */
  ghost predicate Distinct(b: Book) {
    forall t :: Issued(b, t) <= 1
  }

  /** The balance is the starting balance plus the profit of every closed trade. */
  ghost predicate Balanced(b: Book, start: real) {
    b.balance == start + SumPnl(b.closed)
  }

  lemma {:induction false} ExitsPartition(ps: seq<Position>, prices: Prices, contractSize: real, t: Ticket)
    ensures Live(ps, t) == Live(Remaining(ps, prices), t) + Closings(Settled(ps, prices, contractSize), t)
  {
    hide Pnl, ExitOf;
    if ps != [] {
      var front, p := ps[..|ps| - 1], ps[|ps| - 1];
      ExitsPartition(front, prices, contractSize, t);
      var exit := ExitOf(p, prices);
      if exit.Some? {
        assert Remaining(front, prices) + [] == Remaining(front, prices);
        ClosingsSnoc(Settled(front, prices, contractSize), TradeOf(p, exit.value.0, exit.value.1, contractSize), t);
      } else {
        assert Settled(front, prices, contractSize) + [] == Settled(front, prices, contractSize);
        LiveSnoc(Remaining(front, prices), p, t);
      }
    }
  }

  /** Evaluating exits moves tickets from live to closed and profit into the balance; it loses and
      invents neither. */
  lemma ExitsKeep(b: Book, prices: Prices, start: real, t: Ticket)
    requires Balanced(b, start)
    ensures Issued(AfterExits(b, prices), t) == Issued(b, t) && Balanced(AfterExits(b, prices), start)
  {
    ExitsPartition(b.positions, prices, b.contractSize, t);
    SumPnlConcat(b.closed, Settled(b.positions, prices, b.contractSize));
    ClosingsConcat(b.closed, Settled(b.positions, prices, b.contractSize), t);
  }

  lemma CloseKeeps(b: Book, i: nat, exit: real, reason: CloseReason, start: real, t: Ticket)
    requires i < |b.positions| && Balanced(b, start)
    ensures Issued(AfterClose(b, i, exit, reason), t) == Issued(b, t)
    ensures Balanced(AfterClose(b, i, exit, reason), start)
  {
    var trade := TradeOf(b.positions[i], exit, reason, b.contractSize);
    assert trade.ticket == b.positions[i].ticket;
    hide TradeOf, RemoveAt;
    ClosingsSnoc(b.closed, trade, t);
    LiveWithout(b.positions, i, t);
  }

  lemma StopKeeps(b: Book, i: nat, sl: real, t: Ticket)
    requires i < |b.positions|
    ensures Issued(WithStop(b, i, sl), t) == Issued(b, t)
  {
    var ps := WithStop(b, i, sl).positions;
    LiveWithout(b.positions, i, t);
    LiveWithout(ps, i, t);
    assert RemoveAt(ps, i) == RemoveAt(b.positions, i);
  }

  // ---------- equity ----------

  function Unrealized(ps: seq<Position>, prices: Prices, contractSize: real): Option<real> {
    if ps == [] then Some(0.0)
    else
      var p := ps[|ps| - 1];
      var rest, px := Unrealized(ps[..|ps| - 1], prices, contractSize), LastPrice(prices, p.symbol);
      if rest.None? || px.None? then None else Some(rest.value + Pnl(p, px.value, contractSize))
  }

  function Equity(b: Book, prices: Prices): Option<real> {
    var u := Unrealized(b.positions, prices, b.contractSize);
    if u.None? then None else Some(b.balance + u.value)
  }

  lemma {:induction false} NoPriceNoEquity(ps: seq<Position>, prices: Prices, contractSize: real, k: nat)
    requires k < |ps| && LastPrice(prices, ps[k].symbol).None?
    ensures Unrealized(ps, prices, contractSize).None?
  {
    hide Pnl, LastPrice;
    if k < |ps| - 1 {
      NoPriceNoEquity(ps[..|ps| - 1], prices, contractSize, k);
    }
  }

  lemma {:induction false} UnrealizedWithout(ps: seq<Position>, prices: Prices, contractSize: real, i: nat)
    requires i < |ps| && Unrealized(ps, prices, contractSize).Some?
    ensures LastPrice(prices, ps[i].symbol).Some? && Unrealized(RemoveAt(ps, i), prices, contractSize).Some?
    ensures Unrealized(ps, prices, contractSize).value
         == Unrealized(RemoveAt(ps, i), prices, contractSize).value
            + Pnl(ps[i], LastPrice(prices, ps[i].symbol).value, contractSize)
  {
    hide Pnl, LastPrice;
    var front := ps[..|ps| - 1];
    if i == |ps| - 1 {
      assert RemoveAt(ps, i) == front;
    } else {
      UnrealizedWithout(front, prices, contractSize, i);
      var rest, last := RemoveAt(ps, i), ps[|ps| - 1];
      hide RemoveAt;
      assert rest != [] && rest[|rest| - 1] == last && rest[..|rest| - 1] == RemoveAt(front, i);
    }
  }

  /** Closing a position at its current price turns unrealised profit into balance: the account
      equity does not move. */
  lemma ClosingConservesEquity(b: Book, prices: Prices, i: nat, reason: CloseReason)
    requires i < |b.positions| && Equity(b, prices).Some?
    ensures LastPrice(prices, b.positions[i].symbol).Some?
    ensures Equity(AfterClose(b, i, LastPrice(prices, b.positions[i].symbol).value, reason), prices) == Equity(b, prices)
  {
    hide Pnl, LastPrice, Round2;
    UnrealizedWithout(b.positions, prices, b.contractSize, i);
  }

  // ---------- the adapter object ----------

  class PaperBrokerAdapter {
    const contractSize: real
    var balance: real
    var positions: seq<Position>
    var closed: seq<ClosedTrade>
    var prices: Prices
    var connected: bool

    function State(): Book
      reads this
    {
      Book(contractSize, balance, positions, closed)
    }

    constructor (startingBalance: real, contractSize: real)
      ensures State() == Book(contractSize, startingBalance, [], []) && prices == map[] && !connected
      ensures this.contractSize == contractSize
    {
      this.contractSize := contractSize;
      balance, positions, closed, prices, connected := startingBalance, [], [], map[], false;
    }

    method Connect()
      modifies this`connected
      ensures connected
    {
      connected := true;
    }

    method UpdatePrices(quotes: Prices)
      modifies this`prices
      ensures prices == quotes
    {
      prices := quotes;
    }

    /** Without a price for every position the equity is unknown. */
    method AccountEquity() returns (equity: Option<real>)
      ensures equity == Equity(State(), prices)
    {
      hide Pnl, LastPrice;
      var unrealized := 0.0;
      assert positions[..0] == [];
      for k := 0 to |positions|
        invariant Unrealized(positions[..k], prices, contractSize) == Some(unrealized)
      {
        var p := positions[k];
        assert positions[..k + 1][..k] == positions[..k];
        var price := LastPrice(prices, p.symbol);
        if price.None? {
          NoPriceNoEquity(positions, prices, contractSize, k);
          return None;
        }
        unrealized := unrealized + Pnl(p, price.value, contractSize);
      }
      assert positions[..|positions|] == positions;
      return Some(balance + unrealized);
    }

    /** `ticket` is the random id the source draws. */
    method OpenMarketOrder(symbol: string, d: Direction, volume: real, sl: Option<real>, tp: Option<real>, ticket: Ticket)
      returns (filled: Option<Position>)
      modifies this`positions
      ensures filled == (if connected && LastPrice(prices, symbol).Some?
                         then Some(Position(ticket, symbol, d, volume, Round2(LastPrice(prices, symbol).value), sl, tp))
                         else None)
      ensures State() == if filled.Some? then old(State()).(positions := old(positions) + [filled.value]) else old(State())
    {
      hide Round2;
      if !connected {
        return None;
      }
      var entry := LastPrice(prices, symbol);
      if entry.None? {
        return None;
      }
      var p := Position(ticket, symbol, d, volume, Round2(entry.value), sl, tp);
      positions := positions + [p];
      return Some(p);
    }

    method CloseTrade(ticket: Ticket, reason: CloseReason, price: Option<real>) returns (trade: Option<ClosedTrade>)
      modifies this`balance, this`positions, this`closed
      ensures var i := Find(old(positions), ticket);
        var exit := if price.Some? || i.None? then price else LastPrice(prices, old(positions)[i.value].symbol);
        if i.None? || exit.None? then trade == None && State() == old(State())
        else trade == Some(TradeOf(old(positions)[i.value], exit.value, reason, contractSize))
             && State() == AfterClose(old(State()), i.value, exit.value, reason)
    {
      hide LastPrice, Pnl, Round2;
      var i := Find(positions, ticket);
      if i.None? {
        return None;
      }
      var pos := positions[i.value];
      var exit := if price.Some? then price else LastPrice(prices, pos.symbol);
      if exit.None? {
        return None;
      }
      positions := RemoveAt(positions, i.value);
      var t := Settle(pos, exit.value, reason);
      return Some(t);
    }

    method ModifyStop(ticket: Ticket, sl: real) returns (success: bool)
      modifies this`positions
      ensures var i := Find(old(positions), ticket);
        success == i.Some?
        && State() == if i.Some? then old(State()).(positions := old(positions)[i.value := old(positions)[i.value].(sl := Some(sl))])
                      else old(State())
    {
      var i := Find(positions, ticket);
      if i.None? {
        return false;
      }
      positions := positions[i.value := positions[i.value].(sl := Some(sl))];
      return true;
    }

    method Settle(pos: Position, exit: real, reason: CloseReason) returns (trade: ClosedTrade)
      modifies this`balance, this`closed
      ensures trade == TradeOf(pos, exit, reason, contractSize)
      ensures balance == old(balance) + trade.pnl && closed == old(closed) + [trade]
    {
      hide Pnl, Round2;
      trade := TradeOf(pos, exit, reason, contractSize);
      balance := balance + trade.pnl;
      closed := closed + [trade];
    }

    /** Evaluate target and stop of every position against the quotes. */
    method CheckExits(quotes: Prices) returns (settled: seq<ClosedTrade>)
      requires Distinct(State())
      modifies this`balance, this`positions, this`closed
      ensures settled == Settled(old(positions), quotes, contractSize)
      ensures State() == AfterExits(old(State()), quotes)
    {
      hide ExitOf, Live, Find, Remaining, Settled, SumPnl, TradeOf;
      settled := [];
      ghost var book := State();
      var all := positions;
      NoExits(quotes, contractSize);
      for k := 0 to |all|
        invariant positions == Remaining(all[..k], quotes) + all[k..]
        invariant settled == Settled(all[..k], quotes, contractSize)
        invariant closed == book.closed + settled && balance == book.balance + SumPnl(settled)
      {
        var pos := all[k];
        var exit := ExitOf(pos, quotes);
        ExitsStep(all, k, quotes, contractSize);
        if exit.Some? {
          assert Issued(book, pos.ticket) <= 1;
          FindAfterKept(all, k, quotes);
          var i := Find(positions, pos.ticket);
          positions := RemoveAt(positions, i.value);
          var trade := Settle(pos, exit.value.0, exit.value.1);
          ClosingsSnoc(settled, trade, pos.ticket);
          settled := settled + [trade];
        }
      }
      assert all[..|all|] == all;
    }
  }

  lemma NoExits(prices: Prices, contractSize: real)
    ensures Remaining([], prices) == [] && Settled([], prices, contractSize) == [] && SumPnl([]) == 0.0
  {
  }

  lemma ExitsStep(all: seq<Position>, k: nat, prices: Prices, contractSize: real)
    requires k < |all|
    ensures var exit, kept := ExitOf(all[k], prices), Remaining(all[..k], prices);
      && Settled(all[..k + 1], prices, contractSize)
         == Settled(all[..k], prices, contractSize)
            + (if exit.Some? then [TradeOf(all[k], exit.value.0, exit.value.1, contractSize)] else [])
      && Remaining(all[..k + 1], prices) + all[k + 1..]
         == if exit.Some? then RemoveAt(kept + all[k..], |kept|) else kept + all[k..]
  {
    hide ExitOf, TradeOf;
    assert all[..k + 1][..k] == all[..k];
    var kept := Remaining(all[..k], prices);
    assert kept + all[k..] == kept + [all[k]] + all[k + 1..];
  }

  lemma FindAfterKept(all: seq<Position>, k: nat, prices: Prices)
    requires k < |all| && Live(all, all[k].ticket) <= 1
    ensures Find(Remaining(all[..k], prices) + all[k..], all[k].ticket) == Some(|Remaining(all[..k], prices)|)
  {
    var kept, t := Remaining(all[..k], prices), all[k].ticket;
    ExitsPartition(all[..k], prices, 0.0, t);
    LiveConcat(all[..k], all[k..], t);
    assert all == all[..k] + all[k..];
    LiveConcat(kept, all[k..], t);
    FindUnique(kept + all[k..], |kept|);
  }
}
