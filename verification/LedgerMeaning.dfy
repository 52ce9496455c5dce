/** What each operation of the execution service does to the book and the trade table, in the fields
    of records, positions and quotes (services/execution/service.py). */
module LedgerMeaning {
  import opened Prelude
  import opened PaperBroker
  import opened BrokerMeaning
  import opened Ledger
  import Ticks

  // ---------- opening ----------

  /** The records with status OPEN. */
  ghost function OpenRows(table: seq<TradeRecord>): set<nat> {
    set i: nat | i < |table| && table[i].status == Open
  }

  lemma {:induction false} CountsOpenRows(table: seq<TradeRecord>)
    ensures OpenCount(table) == |OpenRows(table)|
  {
    if table != [] {
      var n := |table| - 1;
      CountsOpenRows(table[..n]);
      if table[n].status == Open {
        assert OpenRows(table) == OpenRows(table[..n]) + {n};
      } else {
        assert OpenRows(table) == OpenRows(table[..n]);
      }
    }
  }

  ghost predicate MayOpen(cfg: Config, w: World) {
    cfg.maxOpen == 0 || |OpenRows(w.table)| < cfg.maxOpen
  }

  ghost predicate IsFill(o: Order, ticket: Ticket, px: real, p: Position) {
    p == Position(ticket, o.symbol, o.direction, o.volume, Round2(px), o.sl, o.tp)
  }

  ghost predicate IsRecord(o: Order, p: Position, r: TradeRecord) {
    r == TradeRecord(p.ticket, o.strategy, o.symbol, o.direction, o.volume, p.entry, o.sl, o.tp, Open, o.riskAmount,
                     None, None, 0.0, 0.0, false)
  }

  /** An approved signal opens a position exactly while fewer records are OPEN than the limit allows, or
      there is none, and its symbol has a price: one position and its record, or two positions and no
      record when the record cannot be stored. Otherwise it is rejected and nothing else changes. */
  lemma ApproveIff(cfg: Config, w: World, o: Order, t1: Ticket, t2: Ticket, insertable: bool)
    ensures var after := Apply(cfg, w, ApproveOp(o, t1, t2, insertable));
      if !MayOpen(cfg, w) || IsLastPrice(w.prices, o.symbol, None) then after == w.(events := w.events + [TradeRejected])
      else exists px, p, q, r ::
          && IsLastPrice(w.prices, o.symbol, Some(px)) && IsFill(o, t1, px, p) && IsFill(o, t2, px, q) && IsRecord(o, p, r)
          && if insertable
             then after == w.(book := w.book.(positions := w.book.positions + [p]), table := w.table + [r],
                              events := w.events + [TradeOpened(Some(t1))])
             else after == w.(book := w.book.(positions := w.book.positions + [p, q]), events := w.events + [TradeOpened(None)])
  {
    hide Round2, LastPrice, IsLastPrice, OpenRows;
    CountsOpenRows(w.table);
    OnePrice(w.prices, o.symbol);
    LastPriceIs(w.prices, o.symbol);
    var px := LastPrice(w.prices, o.symbol);
    if px.Some? {
      var p, q := PositionFor(o, t1, px.value), PositionFor(o, t2, px.value);
      assert IsFill(o, t1, px.value, p) && IsFill(o, t2, px.value, q) && IsRecord(o, p, RecordFor(o, p));
      assert w.book.positions + [p] + [q] == w.book.positions + [p, q];
    }
  }

  // ---------- booking a close ----------

  /** The row of a booked trade: closed, with the trade's price, reason and profit, and the profit in
      multiples of the risk if there is any. */
  ghost predicate IsSettled(r: TradeRecord, c: ClosedTrade, s: TradeRecord) {
    && s == r.(status := Closed, closePrice := Some(c.closePrice), reason := Some(c.reason), pnl := c.pnl, pnlR := s.pnlR)
    && if r.riskAmount > 0.0 then s.pnlR * r.riskAmount == c.pnl else s.pnlR == r.pnlR
  }

  /** The first OPEN row under the ticket. */
  ghost predicate IsFirstOpen(table: seq<TradeRecord>, ticket: Ticket, i: nat) {
    && i < |table| && table[i].status == Open && table[i].ticket == ticket
    && forall j :: 0 <= j < i ==> !(table[j].status == Open && table[j].ticket == ticket)
  }

  /** Booking a trade closes the first OPEN row under its ticket and no other; without one it changes
      nothing. */
  lemma SettleIs(w: World, c: ClosedTrade)
    ensures (forall i :: 0 <= i < |w.table| ==> !(w.table[i].status == Open && w.table[i].ticket == c.ticket)) ==> Settle(w, c) == w
    ensures forall i: nat :: IsFirstOpen(w.table, c.ticket, i) ==>
              exists s :: IsSettled(w.table[i], c, s)
                          && Settle(w, c) == w.(table := w.table[i := s], events := w.events + [TradeClosed(c.ticket)])
  {
    var f := FirstOpen(w.table, c.ticket);
    if f.Some? {
      SettledRowIs(w.table[f.value], c);
      forall i: nat | IsFirstOpen(w.table, c.ticket, i)
        ensures i == f.value
      {
      }
    }
  }

  lemma SettledRowIs(r: TradeRecord, c: ClosedTrade)
    ensures IsSettled(r, c, SettleRow(r, c))
  {
    if r.riskAmount > 0.0 {
      assert c.pnl / r.riskAmount * r.riskAmount == c.pnl;
    }
  }

  /** Closing a position takes it out of the book and then books the trade of it, unless the booking
      fails. */
  lemma ClosingIs(w: World, p: nat, price: real, reason: CloseReason, fault: Fault)
    requires p < |w.book.positions|
    ensures var after := CloseAndSettle(w, p, price, reason, fault);
      exists c :: ClosedAt(w.book.positions[p], price, reason, w.book.contractSize, c)
                  && var book := Book(w.book.contractSize, w.book.balance + c.pnl, w.book.positions[..p] + w.book.positions[p + 1..],
                                      w.book.closed + [c]);
                     if fault == BookingFails then after == w.(book := book) else after == Settle(w.(book := book), c)
  {
    hide Settle, TradeOf, ClosedAt;
    var c := TradeOf(w.book.positions[p], price, reason, w.book.contractSize);
    OneProfit(w.book.positions[p], price, reason, w.book.contractSize, c);
  }

  // ---------- reconciliation ----------

  ghost predicate HasPosition(w: World, t: Ticket) {
    exists p :: 0 <= p < |w.book.positions| && w.book.positions[p].ticket == t
  }

  ghost predicate HasOpenRow(w: World, t: Ticket) {
    t != "" && exists i :: 0 <= i < |w.table| && w.table[i].status == Open && w.table[i].ticket == t
  }

  ghost predicate IsOrphan(w: World, t: Ticket) {
    HasPosition(w, t) && !HasOpenRow(w, t)
  }

  lemma OrphanIff(w: World, t: Ticket)
    ensures t in Orphans(w) <==> IsOrphan(w, t)
  {
    if HasOpenRow(w, t) {
      var i :| 0 <= i < |w.table| && w.table[i].status == Open && w.table[i].ticket == t;
      assert w.table[i] in w.table;
    }
    if HasPosition(w, t) {
      var p :| 0 <= p < |w.book.positions| && w.book.positions[p].ticket == t;
      assert w.book.positions[p] in w.book.positions;
    }
  }

  /** A pass begins with the positions that have no OPEN record: all of them count as reported from now
      on, those that did not before are to be alerted, and the startup gate remembers each. */
  lemma BeginIs(w: World, gate: bool)
    ensures var after := BeginPass(w, gate);
      && after == w.(pass := after.pass, reported := after.reported, issues := after.issues) && after.pass.Some?
      && var pass := after.pass.value;
         && pass.gate == gate && pass.rows == |w.table| && pass.missing == []
         && (forall t :: t in pass.live <==> HasPosition(w, t)) && (forall t :: t in pass.orphans <==> IsOrphan(w, t))
         && (forall t :: t in pass.alerts <==> IsOrphan(w, t) && t !in w.reported)
         && (forall t :: t in after.reported <==> t in w.reported || IsOrphan(w, t))
         && (forall x :: x in after.issues <==> x in w.issues || (gate && x.OrphanIssue? && IsOrphan(w, x.ticket)))
  {
    hide Orphans, IsOrphan;
    forall t: Ticket
      ensures t in Orphans(w) <==> IsOrphan(w, t)
      ensures t in TicketSet(w.book.positions) <==> HasPosition(w, t)
    {
      OrphanIff(w, t);
      if HasPosition(w, t) {
        var p :| 0 <= p < |w.book.positions| && w.book.positions[p].ticket == t;
        assert w.book.positions[p] in w.book.positions;
      }
    }
  }

  /** A pass ends by forgetting the reported tickets that are no longer orphans and raises one alert if
      there is anything new. */
  lemma EndIs(w: World)
    requires w.pass.Some?
    ensures var after, pass := EndPass(w), w.pass.value;
      && after == w.(pass := None, reported := after.reported, events := after.events)
      && (forall t :: t in after.reported <==> t in w.reported && t in pass.orphans)
      && (if |pass.alerts| == 0 && |pass.missing| == 0 then after.events == w.events
          else after.events == w.events + [Critical(pass.alerts, pass.missing)])
  {
  }

  /** The row was OPEN under a ticket that was not live when the pass began. */
  ghost predicate IsGone(w: World, i: nat) {
    && w.pass.Some? && i < w.pass.value.rows && i < |w.table|
    && w.table[i].status == Open && w.table[i].ticket != "" && w.table[i].ticket !in w.pass.value.live
  }

  ghost predicate FirstTrade(cs: seq<ClosedTrade>, t: Ticket, k: nat) {
    k < |cs| && cs[k].ticket == t && forall j :: 0 <= j < k ==> cs[j].ticket != t
  }

  /** A pass settles a record whose position is gone from the first trade that history has for it, and
      flags it for review when there is none; it leaves every other record alone. */
  lemma ResolveIs(w: World, i: nat)
    ensures !IsGone(w, i) ==> ResolveRecord(w, i) == w
    ensures IsGone(w, i) ==>
              forall k: nat :: FirstTrade(w.book.closed, w.table[i].ticket, k) ==> ResolveRecord(w, i) == Settle(w, w.book.closed[k])
    ensures IsGone(w, i) && (forall c :: c in w.book.closed ==> c.ticket != w.table[i].ticket) ==>
              var r, pass := w.table[i], w.pass.value;
              ResolveRecord(w, i) == w.(table := w.table[i := r.(status := ManualReview)],
                                        pass := Some(pass.(missing := pass.missing + [r.ticket])),
                                        issues := if pass.gate then w.issues + {MissingIssue(r.ticket)} else w.issues)
  {
    hide Settle;
    if IsGone(w, i) {
      forall k: nat | FirstTrade(w.book.closed, w.table[i].ticket, k)
        ensures FirstClosed(w.book.closed, w.table[i].ticket) == Some(w.book.closed[k])
      {
        FirstClosedIs(w.book.closed, w.table[i].ticket, k);
      }
    }
  }

  lemma {:induction false} FirstClosedIs(cs: seq<ClosedTrade>, t: Ticket, k: nat)
    requires FirstTrade(cs, t, k)
    ensures FirstClosed(cs, t) == Some(cs[k])
  {
    var n := |cs| - 1;
    if k < n {
      FirstClosedIs(cs[..n], t, k);
    } else {
      assert forall c :: c in cs[..n] ==> c.ticket != t;
    }
  }

  // ---------- position management ----------

  /** The stop of the position moves, and the record's with it unless that write fails; nothing else
      does. */
  lemma MoveStopIs(w: World, i: nat, p: nat, sl: real, breakeven: bool, fault: Fault)
    requires i < |w.table| && p < |w.book.positions|
    ensures var after := MoveStop(w, i, p, sl, breakeven, fault);
      && after == w.(book := w.book.(positions := w.book.positions[p := w.book.positions[p].(sl := Some(sl))]), table := after.table)
      && (if fault == StopWriteFails then after.table == w.table
          else after.table == w.table[i := w.table[i].(sl := Some(sl), breakevenDone := breakeven || w.table[i].breakevenDone)])
  {
  }

  /** Entry and stop are `risk` apart, and the stop is one. */
  ghost predicate HasRisk(r: TradeRecord, risk: real) {
    risk > 0.0 && r.sl.Some? && r.sl.value != 0.0 && (risk == r.entry - r.sl.value || risk == r.sl.value - r.entry)
  }

  lemma RiskIff(r: TradeRecord, risk: real)
    ensures HasRisk(r, risk) <==> Risk(r) > 0.0 && Risk(r) == risk
  {
  }

  /** The price has moved the trade's way by the configured multiple of its risk. */
  ghost predicate Reached(r: TradeRecord, px: real, risk: real, multiple: real) {
    match r.direction
    case Long => px - r.entry >= multiple * risk
    case Short => r.entry - px >= multiple * risk
  }

  ghost predicate IsDue(w: World, r: TradeRecord, risk: real, breakevenAtR: real) {
    && breakevenAtR != 0.0 && !r.breakevenDone
    && exists px :: IsLastPrice(w.prices, r.symbol, Some(px)) && Reached(r, px, risk, breakevenAtR)
  }

  lemma ReachedIff(r: TradeRecord, px: real, risk: real, multiple: real)
    requires HasRisk(r, risk) && Risk(r) == risk
    ensures ProfitInR(r, px) >= multiple <==> Reached(r, px, risk, multiple)
  {
    var gain := if r.direction == Long then px - r.entry else r.entry - px;
    assert Sign(r.direction) * (px - r.entry) == gain;
    QuotientAtLeast(gain, risk, multiple);
  }

  lemma QuotientAtLeast(gain: real, risk: real, multiple: real)
    requires risk > 0.0
    ensures gain / risk >= multiple <==> gain >= multiple * risk
  {
    var q := gain / risk;
    assert q * risk == gain;
    assert (q - multiple) * risk == gain - multiple * risk;
  }

  lemma OneLastPrice(prices: Prices, symbol: string, x: real, y: real)
    requires IsLastPrice(prices, symbol, Some(x)) && IsLastPrice(prices, symbol, Some(y))
    ensures x == y
  {
  }

  lemma DueIff(w: World, m: Management, r: TradeRecord, risk: real)
    requires m.Ict? && HasRisk(r, risk) && Risk(r) > 0.0
    ensures BreakevenDue(m, r, LastPrice(w.prices, r.symbol)) <==> IsDue(w, r, risk, m.breakevenAtR)
  {
    hide LastPrice, IsLastPrice, ProfitInR, Reached;
    var px := LastPrice(w.prices, r.symbol);
    RiskIff(r, risk);
    LastPriceIs(w.prices, r.symbol);
    OnePrice(w.prices, r.symbol);
    if px.Some? {
      ReachedIff(r, px.value, risk, m.breakevenAtR);
    }
    if IsDue(w, r, risk, m.breakevenAtR) {
      var x :| IsLastPrice(w.prices, r.symbol, Some(x)) && Reached(r, x, risk, m.breakevenAtR);
      SomePrice(w.prices, r.symbol, x);
    }
  }

  lemma SomePrice(prices: Prices, symbol: string, x: real)
    requires IsLastPrice(prices, symbol, Some(x))
    ensures LastPrice(prices, symbol) == Some(x)
  {
  }

  /** The record is OPEN, its strategy is managed this way, and the position under its ticket is the
      `p`th. */
  ghost predicate Manages(cfg: Config, w: World, i: nat, p: nat, m: Management) {
    && i < |w.table| && p < |w.book.positions| && w.table[i].status == Open && w.book.positions[p].ticket == w.table[i].ticket
    && w.table[i].strategy in cfg.strategies && cfg.strategies[w.table[i].strategy] == m
  }

  /** Breakeven management: when the price has gone the configured multiple of the risk, the stop goes to
      the rounded entry, once; when structure has broken against the trade and early exit is on, the
      trade is closed at that candle's close. */
  lemma IctRowIs(cfg: Config, w: World, i: nat, p: nat, risk: real, breakevenAtR: real, earlyExit: bool,
                 bosClose: Option<real>, fault: Fault)
    requires Distinct(w.book) && Manages(cfg, w, i, p, Ict(breakevenAtR, earlyExit)) && HasRisk(w.table[i], risk)
    ensures var r, due := w.table[i], IsDue(w, w.table[i], risk, breakevenAtR);
      var moved := if due then MoveStop(w, i, p, Round2(r.entry), true, fault) else w;
      ManageIctRow(cfg, w, i, bosClose, fault)
      == if fault == Raises then w
         else if !earlyExit || bosClose.None? || fault == SearchRaises || (due && fault == StopWriteFails) then moved
         else CloseAndSettle(moved, p, bosClose.value, OppositeBos, fault)
  {
    hide MoveStop, CloseAndSettle, Round2, IsDue, BreakevenDue, Distinct;
    var r := w.table[i];
    RiskIff(r, risk);
    PositionFound(w, p);
    DueIff(w, Ict(breakevenAtR, earlyExit), r, risk);
  }

  lemma PositionFound(w: World, p: nat)
    requires Distinct(w.book) && p < |w.book.positions|
    ensures Find(w.book.positions, w.book.positions[p].ticket) == Some(p)
  {
    assert Issued(w.book, w.book.positions[p].ticket) <= 1;
    FindUnique(w.book.positions, p);
  }

  /** Without risk, or without a position, or under another model, breakeven management does nothing. */
  lemma IctRowStays(cfg: Config, w: World, i: nat, bosClose: Option<real>, fault: Fault)
    requires forall p: nat, risk, m :: Manages(cfg, w, i, p, m) && HasRisk(w.table[i], risk) ==> !m.Ict?
    ensures ManageIctRow(cfg, w, i, bosClose, fault) == w
  {
    hide BreakevenDue, MoveStop, CloseAndSettle, Manages, HasRisk;
    if i < |w.table| && ManagedIct(cfg, w, i) {
      ManagedHasRisk(cfg, w, i);
    }
  }

  lemma ManagedHasRisk(cfg: Config, w: World, i: nat)
    requires i < |w.table| && ManagedIct(cfg, w, i)
    ensures exists p: nat, risk, m :: Manages(cfg, w, i, p, m) && HasRisk(w.table[i], risk) && m.Ict?
  {
    var r := w.table[i];
    RiskIff(r, Risk(r));
    assert Manages(cfg, w, i, Find(w.book.positions, r.ticket).value, ManagementOf(cfg, r)) && HasRisk(r, Risk(r));
  }

  /** A managed record's iteration searches for a structure break only under early exit, among its candles
      and against its direction; a search that raises ends the iteration unless something did before. */
  lemma IctStepIs(cfg: Config, w: World, cs: seq<Candle>, fault: Fault, i: nat, p: nat, risk: real, breakevenAtR: real, earlyExit: bool)
    requires Manages(cfg, w, i, p, Ict(breakevenAtR, earlyExit)) && HasRisk(w.table[i], risk)
    ensures Ticks.IctStepAt(cfg, w, cs, fault, i)
         == if !earlyExit then IctOp(i, None, fault)
            else match Ticks.BreakClose(cs, w.table[i].direction)
              case Success(close) => IctOp(i, close, fault)
              case Raised(_) => IctOp(i, None, if fault == Raises || fault == StopWriteFails then fault else SearchRaises)
  {
    hide Ticks.BreakClose;
    RiskIff(w.table[i], risk);
    HasFound(w.book.positions, p);
  }

  lemma {:induction false} HasFound(ps: seq<Position>, p: nat)
    requires p < |ps|
    ensures Find(ps, ps[p].ticket).Some?
  {
    if p < |ps| - 1 {
      HasFound(ps[..|ps| - 1], p);
    }
  }

  /** The stop behind the safety line by the buffer, in ATRs or, without one, in points. */
  ghost predicate IsTrail(r: TradeRecord, safety: real, atr: Option<real>, slBufferAtr: real, candidate: real) {
    var buffer := if atr.Some? && atr.value > 0.0 then slBufferAtr * atr.value else slBufferAtr;
    match r.direction
    case Long => candidate == Round2(safety - buffer)
    case Short => candidate == Round2(safety + buffer)
  }

  /** Safety-line management: a close beyond the line ends the trade at it; otherwise the stop follows
      the line when that tightens it. */
  lemma LineRowIs(cfg: Config, w: World, i: nat, p: nat, slBufferAtr: real, view: LineView, safety: real, candidate: real, fault: Fault)
    requires Distinct(w.book) && Manages(cfg, w, i, p, Trendline(slBufferAtr)) && view.safety == Some(safety)
    requires IsTrail(w.table[i], safety, view.atr, slBufferAtr, candidate)
    ensures var r := w.table[i];
      ManageLineRow(cfg, w, i, Some(view), fault)
      == if fault == Raises || fault == SearchRaises then w
         else if (r.direction == Long && view.close < safety) || (r.direction == Short && view.close > safety)
         then CloseAndSettle(w, p, view.close, SafetyLine, fault)
         else if r.sl.None? || (r.direction == Long && candidate > r.sl.value) || (r.direction == Short && candidate < r.sl.value)
         then MoveStop(w, i, p, candidate, false, fault)
         else w
  {
    hide MoveStop, CloseAndSettle, Round2, Distinct;
    PositionFound(w, p);
    assert slBufferAtr * 1.0 == slBufferAtr;
    assert candidate == TrailCandidate(w.table[i].direction, safety, view.atr, slBufferAtr);
  }

  /** Without a line, without a position, or under another model, nothing happens. */
  lemma LineRowStays(cfg: Config, w: World, i: nat, view: Option<LineView>, fault: Fault)
    requires view.None? || view.value.safety.None? || forall p: nat, m :: Manages(cfg, w, i, p, m) ==> !m.Trendline?
    ensures ManageLineRow(cfg, w, i, view, fault) == w
  {
    hide MoveStop, CloseAndSettle, TrailCandidate, Manages;
    if i < |w.table| && ManagedLine(cfg, w, i, view) {
      ManagedHasLine(cfg, w, i, view);
    }
  }

  lemma ManagedHasLine(cfg: Config, w: World, i: nat, view: Option<LineView>)
    requires i < |w.table| && ManagedLine(cfg, w, i, view)
    ensures view.Some? && view.value.safety.Some? && exists p: nat, m :: Manages(cfg, w, i, p, m) && m.Trendline?
  {
    assert Manages(cfg, w, i, Find(w.book.positions, w.table[i].ticket).value, ManagementOf(cfg, w.table[i]));
  }

  // ---------- the other steps ----------

  /** A quote replaces its symbol's; exits are evaluated at the last quotes and booked one by one, unless a
      booking raises; a pass that is aborted is forgotten; the tick ends by publishing the equity. */
  lemma OtherStepsAre(cfg: Config, w: World)
    ensures forall symbol, quote :: Apply(cfg, w, QuoteOp(symbol, quote)) == w.(prices := w.prices[symbol := quote])
    ensures Apply(cfg, w, ExitsOp) == w.(book := AfterExits(w.book, w.prices))
    ensures forall k: nat, fault :: Apply(cfg, w, SettleOp(k, fault))
                                 == if k < |w.book.closed| && fault == NoFault then Settle(w, w.book.closed[k]) else w
    ensures Apply(cfg, w, AbortOp) == w.(pass := None)
    ensures Apply(cfg, w, EquityOp) == w.(events := w.events + [AccountUpdated(Equity(w.book, w.prices))])
  {
    hide AfterExits, Settle, Equity;
  }

  // ---------- the limit on open records ----------

  ghost predicate WithinLimit(cfg: Config, w: World) {
    cfg.maxOpen > 0 ==> |OpenRows(w.table)| <= cfg.maxOpen
  }

  /** Booking, flagging and moving stops open no record. */
  lemma RowsStayClosed(before: seq<TradeRecord>, after: seq<TradeRecord>)
    requires |after| == |before| && forall i :: 0 <= i < |after| && after[i].status == Open ==> before[i].status == Open
    ensures |OpenRows(after)| <= |OpenRows(before)|
  {
    SubsetIsSmaller(OpenRows(after), OpenRows(before));
  }

  lemma {:induction false} SubsetIsSmaller(a: set<nat>, b: set<nat>)
    requires a <= b
    ensures |a| <= |b|
  {
    if x :| x in a {
      SubsetIsSmaller(a - {x}, b - {x});
    }
  }

  ghost predicate OpensNone(w: World, w': World) {
    |w'.table| == |w.table| && forall i :: 0 <= i < |w.table| && w'.table[i].status == Open ==> w.table[i].status == Open
  }

  lemma SettleOpensNone(w: World, c: ClosedTrade)
    ensures OpensNone(w, Settle(w, c))
  {
  }

  lemma CloseOpensNone(w: World, p: nat, price: real, reason: CloseReason, fault: Fault)
    requires p < |w.book.positions|
    ensures OpensNone(w, CloseAndSettle(w, p, price, reason, fault))
  {
    hide Settle, TradeOf;
    SettleOpensNone(AfterCloseAt(w, p, price, reason), TradeOf(w.book.positions[p], price, reason, w.book.contractSize));
  }

  lemma StepOpensNone(cfg: Config, w: World, op: Op)
    requires !op.ApproveOp?
    ensures OpensNone(w, Apply(cfg, w, op))
  {
    hide Settle, CloseAndSettle, BreakevenDue, TrailCandidate, Round2, Equity, AfterExits, Orphans, OpensNone;
    match op
    case ResolveOp(i, fault) =>
      ResolveOpensNone(w, i);
      NoneOpens(w, w);
    case SettleOp(k, fault) =>
      NoneOpens(w, w);
      if k < |w.book.closed| {
        SettleOpensNone(w, w.book.closed[k]);
      }
    case IctOp(i, bosClose, fault) =>
      IctOpensNone(cfg, w, i, bosClose, fault);
    case LineOp(i, view, fault) =>
      LineOpensNone(cfg, w, i, view, fault);
    case _ =>
      NoneOpens(w, Apply(cfg, w, op));
  }

  lemma NoneOpens(w: World, w': World)
    requires w'.table == w.table
    ensures OpensNone(w, w')
  {
  }

  lemma ResolveOpensNone(w: World, i: nat)
    ensures OpensNone(w, ResolveRecord(w, i))
  {
    hide Settle;
    forall c: ClosedTrade
      ensures OpensNone(w, Settle(w, c))
    {
      SettleOpensNone(w, c);
    }
  }

  lemma IctOpensNone(cfg: Config, w: World, i: nat, bosClose: Option<real>, fault: Fault)
    ensures OpensNone(w, ManageIctRow(cfg, w, i, bosClose, fault))
  {
    hide CloseAndSettle, BreakevenDue, Round2;
    if fault != Raises && i < |w.table| && ManagedIct(cfg, w, i) && bosClose.Some? {
      var r := w.table[i];
      var p := Find(w.book.positions, r.ticket).value;
      CloseOpensNone(w, p, bosClose.value, OppositeBos, fault);
      CloseOpensNone(MoveStop(w, i, p, Round2(r.entry), true, fault), p, bosClose.value, OppositeBos, fault);
    }
  }

  lemma LineOpensNone(cfg: Config, w: World, i: nat, view: Option<LineView>, fault: Fault)
    ensures OpensNone(w, ManageLineRow(cfg, w, i, view, fault))
  {
    hide CloseAndSettle, TrailCandidate, Round2;
    if i < |w.table| && ManagedLine(cfg, w, i, view) {
      CloseOpensNone(w, Find(w.book.positions, w.table[i].ticket).value, view.value.close, SafetyLine, fault);
    }
  }

  /** Over any run the records that are OPEN stay within the configured limit. */
  lemma {:induction false} LimitHolds(cfg: Config, w: World, ops: seq<Op>)
    requires WithinLimit(cfg, w)
    ensures WithinLimit(cfg, Run(cfg, w, ops))
  {
    hide Apply, OpensNone;
    if ops != [] {
      var front, op := ops[..|ops| - 1], ops[|ops| - 1];
      LimitHolds(cfg, w, front);
      var v := Run(cfg, w, front);
      if op.ApproveOp? {
        ApproveKeepsLimit(cfg, v, op.order, op.t1, op.t2, op.insertable);
      } else {
        StepOpensNone(cfg, v, op);
        FewerOpen(cfg, v, Apply(cfg, v, op));
      }
    }
  }

  lemma FewerOpen(cfg: Config, w: World, w': World)
    requires WithinLimit(cfg, w) && OpensNone(w, w')
    ensures WithinLimit(cfg, w')
  {
    RowsStayClosed(w.table, w'.table);
  }

  lemma ApproveKeepsLimit(cfg: Config, w: World, o: Order, t1: Ticket, t2: Ticket, insertable: bool)
    requires WithinLimit(cfg, w)
    ensures WithinLimit(cfg, Apply(cfg, w, ApproveOp(o, t1, t2, insertable)))
  {
    ApproveIff(cfg, w, o, t1, t2, insertable);
    hide Apply, IsLastPrice, IsFill;
    var after := Apply(cfg, w, ApproveOp(o, t1, t2, insertable));
    if after.table != w.table {
      assert |after.table| == |w.table| + 1 && after.table[..|w.table|] == w.table;
      assert OpenRows(after.table) <= OpenRows(w.table) + {|w.table|};
      SubsetIsSmaller(OpenRows(after.table), OpenRows(w.table) + {|w.table|});
    }
  }
}
