/** The execution service over a paper broker (services/execution/service.py): each method is the
    step-by-step code, proved equal to its operations on the ledger, with quotes and signals handled
    while it waits and with steps that raise. */
module Execution {
  import opened Prelude
  import opened PaperBroker
  import opened Ledger
  import opened LedgerInvariants
  import opened Ticks
  import MarketStructure

  class ExecutionService {
    const cfg: Config
    const broker: PaperBrokerAdapter
    var prices: Prices
    var table: seq<TradeRecord>
    var reported: set<Ticket>
    var issues: set<Issue>
    var events: seq<Event>
    /** The locals of a reconciliation pass that is waiting. */
    var pass: Option<Pass>

    function State(): World
      reads this, broker
    {
      World(broker.State(), prices, table, reported, issues, events, pass)
    }

    ghost predicate Connected()
      reads this, broker
    {
      broker.connected && broker.prices == prices
    }

    constructor (cfg: Config, startingBalance: real, contractSize: real, rows: seq<TradeRecord>)
      ensures this.cfg == cfg && fresh(broker) && Connected()
      ensures State() == StartWorld(contractSize, startingBalance, rows)
    {
      this.cfg := cfg;
      var b := new PaperBrokerAdapter(startingBalance, contractSize);
      b.Connect();
      broker := b;
      prices, table, reported, issues, events, pass := map[], rows, {}, {}, [], None;
    }

    method OnQuote(symbol: string, quote: Quote)
      requires Connected()
      modifies this`prices, broker`prices
      ensures Connected() && State() == Apply(cfg, old(State()), QuoteOp(symbol, quote))
    {
      prices := prices[symbol := quote];
      broker.UpdatePrices(prices);
    }

    /** The count check, the order and the insert; an insert that violates the schema rolls the row
        back and the loop tries once more. */
    method OnSignalApproved(o: Order, t1: Ticket, t2: Ticket, insertable: bool)
      requires Connected()
      modifies this`table, this`events, broker`positions
      ensures Connected() && State() == Approve(cfg, old(State()), o, t1, t2, insertable)
    {
      hide LastPrice, Round2, OpenCount;
      var rejected := false;
      var ticket: Option<Ticket> := None;
      if cfg.maxOpen > 0 && OpenCount(table) >= cfg.maxOpen {
        rejected := true;
      } else {
        var first := broker.OpenMarketOrder(o.symbol, o.direction, o.volume, o.sl, o.tp, t1);
        if first.None? {
          rejected := true;
        } else if insertable {
          table := table + [RecordFor(o, first.value)];
          ticket := Some(t1);
        } else {
          var second := broker.OpenMarketOrder(o.symbol, o.direction, o.volume, o.sl, o.tp, t2);
        }
      }
      events := events + [if rejected then TradeRejected else TradeOpened(ticket)];
    }

    method SettleTrade(trade: ClosedTrade)
      modifies this`table, this`events
      ensures State() == Settle(old(State()), trade)
    {
      hide SettleRow;
      var i := FirstOpen(table, trade.ticket);
      if i.None? {
        return;
      }
      table := table[i.value := SettleRow(table[i.value], trade)];
      events := events + [TradeClosed(trade.ticket)];
    }

    /** The start of a pass: read positions and records, report the orphans. */
    method BeginReconcile(gate: bool)
      modifies this`reported, this`issues, this`pass
      ensures State() == BeginPass(old(State()), gate)
    {
      hide TicketSet, OpenTickets, OrphanIssues;
      var live := TicketSet(broker.positions);
      var orphans := live - OpenTickets(table);
      pass := Some(Pass(gate, |table|, live, orphans, orphans - reported, []));
      reported := reported + orphans;
      if gate {
        issues := issues + OrphanIssues(orphans);
      }
    }

    /** Settle a missing record from history, or flag it. */
    method ResolveOne(i: nat)
      modifies this`table, this`issues, this`events, this`pass
      ensures State() == ResolveRecord(old(State()), i)
    {
      hide FirstClosed, Settle;
      if pass.None? || i >= pass.value.rows || i >= |table| {
        return;
      }
      var r := table[i];
      if !IsMissing(r, pass.value.live) {
        return;
      }
      var c := FirstClosed(broker.closed, r.ticket);
      if c.Some? {
        SettleTrade(c.value);
        return;
      }
      table := table[i := r.(status := ManualReview)];
      if pass.value.gate {
        issues := issues + {MissingIssue(r.ticket)};
      }
      pass := Some(pass.value.(missing := pass.value.missing + [r.ticket]));
    }

    method ResolveStep(i: nat, fault: Fault)
      modifies this`table, this`issues, this`events, this`pass
      ensures State() == Apply(cfg, old(State()), ResolveOp(i, fault))
    {
      hide ResolveRecord;
      if fault == NoFault {
        ResolveOne(i);
      }
    }

    /** Book the trade that the broker closed as its `k`th, unless that raises. */
    method SettleStep(k: nat, trade: ClosedTrade, fault: Fault)
      requires k < |broker.closed| && broker.closed[k] == trade
      modifies this`table, this`events
      ensures State() == Apply(cfg, old(State()), SettleOp(k, fault))
    {
      hide Settle;
      if fault == NoFault {
        SettleTrade(trade);
      }
    }

    /** The end of a pass: forget the orphans that went away, alert. */
    method EndReconcile()
      modifies this`reported, this`events, this`pass
      ensures State() == EndPass(old(State()))
    {
      if pass.None? {
        return;
      }
      var p := pass.value;
      reported := reported * p.orphans;
      if p.alerts != {} || p.missing != [] {
        events := events + [Critical(p.alerts, p.missing)];
      }
      pass := None;
    }

    /** What the event loop handles while a tick waits. */
    method Await(handled: seq<Op>)
      requires Connected() && forall op :: op in handled ==> Interruption(op)
      modifies this`prices, this`table, this`events, broker`prices, broker`positions
      ensures Connected() && State() == Run(cfg, old(State()), handled)
    {
      hide Approve;
      ghost var w := State();
      for k := 0 to |handled|
        invariant Connected() && State() == Run(cfg, w, handled[..k])
      {
        assert handled[..k + 1][..k] == handled[..k];
        var op := handled[k];
        assert Interruption(op);
        if op.QuoteOp? {
          OnQuote(op.symbol, op.quote);
        } else {
          OnSignalApproved(op.order, op.t1, op.t2, op.insertable);
        }
      }
      assert handled[..|handled|] == handled;
    }

    /** Resolve the first `n` records one by one. */
    method ResolveEach(n: nat, slots: seq<Slot>) returns (completed: bool)
      requires Connected() && Interruptions(slots)
      modifies this, broker`prices, broker`positions
      ensures Connected() && State() == Run(cfg, old(State()), Iterations(ResolveSteps(n, slots), slots, n))
      ensures completed == !Aborts(slots, n)
    {
      hide Run, Apply, Interruptions, Iterations, Aborts;
      ghost var w, done, steps := State(), [], ResolveSteps(n, slots);
      NoIterations(cfg, w, steps, slots);
      for i := 0 to n
        invariant Connected() && State() == Run(cfg, w, done)
        invariant !Aborts(slots, i) && done == Iterations(steps, slots, i)
      {
        var slot := SlotAt(slots, i);
        IterationIs(steps, slots, i);
        RunIteration(cfg, w, done, steps[i], slot.handled);
        ResolveStep(i, slot.fault);
        done := done + [steps[i]];
        if slot.fault != NoFault {
          StaysAborted(steps, slots, i + 1, n);
          return false;
        }
        HandledAre(slots, i);
        Await(slot.handled);
        done := done + slot.handled;
      }
      return true;
    }

    /** A pass over the records, with what is handled in between; a record whose write raises ends the
        pass without its alerts. */
    method ReconcileWithBroker(gate: bool, slots: seq<Slot>) returns (completed: bool)
      requires Connected() && Interruptions(slots)
      modifies this, broker`prices, broker`positions
      ensures Connected() && State() == Run(cfg, old(State()), PassOps(gate, |old(table)|, slots))
      ensures completed == !Aborts(slots, |old(table)|)
    {
      hide BeginPass, EndPass, Run, Apply, Interruptions, Iterations, Aborts;
      var n := |table|;
      ghost var w, steps := State(), Iterations(ResolveSteps(n, slots), slots, n);
      BeginReconcile(gate);
      RunOne(cfg, w, BeginOp(gate));
      PassSteps(cfg, w, gate);
      completed := ResolveEach(n, slots);
      RunConcat(cfg, w, [BeginOp(gate)], steps);
      RunStep(cfg, w, [BeginOp(gate)] + steps, if completed then EndOp else AbortOp);
      PassSteps(cfg, State(), gate);
      if completed {
        EndReconcile();
      } else {
        pass := None;
      }
    }

    /** Book, one by one, the trades that the broker closed as its `first`th and later. */
    method SettleEach(first: nat, closed: seq<ClosedTrade>, slots: seq<Slot>) returns (completed: bool)
      requires Connected() && Interruptions(slots) && first + |closed| == |broker.closed|
      requires forall k :: 0 <= k < |closed| ==> broker.closed[first + k] == closed[k]
      modifies this`prices, this`table, this`events, broker`prices, broker`positions
      ensures Connected()
      ensures State() == Run(cfg, old(State()), Iterations(SettleSteps(first, |closed|, slots), slots, |closed|))
      ensures completed == !Aborts(slots, |closed|)
    {
      hide Run, Apply, Interruptions, Iterations, Aborts;
      var n := |closed|;
      ghost var w, done, steps := State(), [], SettleSteps(first, n, slots);
      NoIterations(cfg, w, steps, slots);
      for i := 0 to n
        invariant Connected() && State() == Run(cfg, w, done)
        invariant !Aborts(slots, i) && done == Iterations(steps, slots, i)
      {
        var slot := SlotAt(slots, i);
        IterationIs(steps, slots, i);
        RunIteration(cfg, w, done, steps[i], slot.handled);
        SettleStep(first + i, closed[i], slot.fault);
        done := done + [steps[i]];
        if slot.fault != NoFault {
          StaysAborted(steps, slots, i + 1, n);
          return false;
        }
        HandledAre(slots, i);
        Await(slot.handled);
        done := done + slot.handled;
      }
      return true;
    }

    /** Evaluate target and stop of every position and settle what was hit. */
    method CheckAndSettle(slots: seq<Slot>) returns (completed: bool)
      requires Connected() && Distinct(broker.State()) && Interruptions(slots)
      modifies this`prices, this`table, this`events, broker`prices, broker`balance, broker`positions, broker`closed
      ensures Connected() && State() == Run(cfg, old(State()), ExitOps(old(State()), slots))
      ensures completed == !ExitsRaise(old(State()), slots)
    {
      hide Settled, AfterExits, Run, Apply, Distinct, Interruptions, Aborts, Iterations;
      ghost var w := State();
      var first := |broker.closed|;
      var closed := broker.CheckExits(prices);
      RunOne(cfg, w, ExitsOp);
      ExitsIs(cfg, w);
      ClosedBehind(w);
      ghost var steps := Iterations(SettleSteps(first, |closed|, slots), slots, |closed|);
      completed := SettleEach(first, closed, slots);
      RunConcat(cfg, w, [ExitsOp], steps);
    }

    /** Move a stop at the broker, then in the table, unless that write raises. */
    method MoveStopTo(i: nat, sl: real, breakeven: bool, fault: Fault)
      requires Connected() && i < |table| && Find(broker.positions, table[i].ticket).Some?
      modifies this`table, broker`positions
      ensures Connected()
      ensures State() == MoveStop(old(State()), i, Find(old(broker.positions), old(table)[i].ticket).value, sl, breakeven, fault)
    {
      var moved := broker.ModifyStop(table[i].ticket, sl);
      if fault != StopWriteFails {
        table := table[i := table[i].(sl := Some(sl), breakevenDone := breakeven || table[i].breakevenDone)];
      }
    }

    /** Close at the broker, then book, unless that raises. */
    method CloseTo(ticket: Ticket, price: real, reason: CloseReason, fault: Fault)
      requires Connected() && Find(broker.positions, ticket).Some?
      modifies this`table, this`events, broker`balance, broker`positions, broker`closed
      ensures Connected()
      ensures State() == CloseAndSettle(old(State()), Find(old(broker.positions), ticket).value, price, reason, fault)
    {
      hide AfterClose, TradeOf, Settle;
      var trade := broker.CloseTrade(ticket, reason, Some(price));
      if fault != BookingFails {
        SettleTrade(trade.value);
      }
    }

    /** Breakeven at +1R and early exit on an opposite structure break. */
    method ManageIctPositions(view: View, slots: seq<Slot>) returns (completed: bool)
      requires Connected() && Interruptions(slots)
      modifies this`prices, this`table, this`events, broker`prices, broker`balance, broker`positions, broker`closed
      ensures Connected() && State() == Run(cfg, old(State()), IctOps(cfg, old(State()), view, slots, |old(table)|))
      ensures completed == !IctAborts(cfg, old(State()), view, slots, |old(table)|)
    {
      hide IctOps, IctAborts, IctStepAt, Run, Apply, Interruptions;
      var n := |table|;
      ghost var w, done := State(), [];
      NoIctSteps(cfg, w, view, slots);
      for i := 0 to n
        invariant Connected() && State() == Run(cfg, w, done)
        invariant !IctAborts(cfg, w, view, slots, i) && done == IctOps(cfg, w, view, slots, i)
      {
        var slot := SlotAt(slots, i);
        IctIterationIs(cfg, w, view, slots, i);
        ghost var op := IctOpAt(cfg, w, view, slots, i);
        RunIteration(cfg, w, done, op, slot.handled);
        var completedStep := IctStep(i, CandlesAt(view.since, i), slot.fault);
        done := done + [op];
        if !completedStep {
          IctStaysAborted(cfg, w, view, slots, i + 1, n);
          return false;
        }
        HandledAre(slots, i);
        Await(slot.handled);
        done := done + slot.handled;
      }
      return true;
    }

    /** One record: breakeven, then the search for a structure break, which may raise, and the exit. */
    method IctStep(i: nat, since: seq<Candle>, fault: Fault) returns (completed: bool)
      requires Connected()
      modifies this`table, this`events, broker`balance, broker`positions, broker`closed
      ensures Connected()
      ensures var op := IctStepAt(cfg, old(State()), since, fault, i);
        State() == Apply(cfg, old(State()), op) && completed == (op.fault == NoFault)
    {
      hide Round2, LastPrice, AfterClose, TradeOf, Settle, CloseAndSettle, Risk, BreakevenDue, IctStepAt, BreakClose, Apply;
      StepParts(cfg, State(), since, fault, i);
      completed := fault == NoFault;
      if fault == Raises || i >= |table| {
        return;
      }
      var r := table[i];
      var m := ManagementOf(cfg, r);
      var p := Find(broker.positions, r.ticket);
      if r.status != Open || !m.Ict? || p.None? {
        return;
      }
      if Risk(r) <= 0.0 {
        return;
      }
      if BreakevenDue(m, r, LastPrice(prices, r.symbol)) {
        FindSame(broker.positions, p.value, Round2(r.entry), r.ticket);
        MoveStopTo(i, Round2(r.entry), true, fault);
        if fault == StopWriteFails {
          return;
        }
      }
      if m.earlyExit {
        var search := OppositeBosClose(since, r.direction);
        if search.Raised? {
          completed := false;
          return;
        }
        if search.value.Some? && fault != SearchRaises {
          CloseTo(r.ticket, search.value.value, OppositeBos, fault);
        }
      }
    }

    method OppositeBosClose(since: seq<Candle>, d: Direction) returns (close: Result<Option<real>>)
      ensures close == BreakClose(since, d)
    {
      hide MarketStructure.BosOf, MarketStructure.FirstOf;
      var idx := MarketStructure.DetectOppositeBos(since, d, FLOOR_MULT);
      match idx {
        case Raised(e) => return Raised(e);
        case Success(None) => return Success(None);
        case Success(Some(i)) =>
          MarketStructure.OppositeBosIsFirst(since, d, FLOOR_MULT);
          return Success(Some(since[i].close));
      }
    }

    /** Exit beyond the safety line, otherwise trail the stop along it, never against the position. */
    method ManageTrendlinePositions(view: View, slots: seq<Slot>) returns (completed: bool)
      requires Connected() && Interruptions(slots)
      modifies this`prices, this`table, this`events, broker`prices, broker`balance, broker`positions, broker`closed
      ensures Connected() && State() == Run(cfg, old(State()), LineOps(old(State()), view, slots))
      ensures completed == !Aborts(slots, |old(table)|)
    {
      hide ManageLineRow, Run, Apply, Interruptions, Iterations, Aborts;
      var n := |table|;
      ghost var w, done, steps := State(), [], LineSteps(n, view, slots);
      NoIterations(cfg, w, steps, slots);
      for i := 0 to n
        invariant Connected() && State() == Run(cfg, w, done)
        invariant !Aborts(slots, i) && done == Iterations(steps, slots, i)
      {
        var slot := SlotAt(slots, i);
        IterationIs(steps, slots, i);
        RunIteration(cfg, w, done, steps[i], slot.handled);
        LineStepIs(cfg, State(), i, At(view.lines, i), slot.fault);
        LineStep(i, At(view.lines, i), slot.fault);
        done := done + [steps[i]];
        if slot.fault != NoFault {
          StaysAborted(steps, slots, i + 1, n);
          return false;
        }
        HandledAre(slots, i);
        Await(slot.handled);
        done := done + slot.handled;
      }
      return true;
    }

    method LineStep(i: nat, view: Option<LineView>, fault: Fault)
      requires Connected()
      modifies this`table, this`events, broker`balance, broker`positions, broker`closed
      ensures Connected() && State() == ManageLineRow(cfg, old(State()), i, view, fault)
    {
      hide AfterClose, TradeOf, Settle, CloseAndSettle, TrailCandidate;
      if fault == Raises || fault == SearchRaises || i >= |table| {
        return;
      }
      var r := table[i];
      var m := ManagementOf(cfg, r);
      var p := Find(broker.positions, r.ticket);
      if r.status != Open || !m.Trendline? || p.None? {
        return;
      }
      if view.None? || view.value.safety.None? {
        return;
      }
      var safety, close := view.value.safety.value, view.value.close;
      if (r.direction == Long && close < safety) || (r.direction == Short && close > safety) {
        CloseTo(r.ticket, close, SafetyLine, fault);
        return;
      }
      var candidate := TrailCandidate(r.direction, safety, view.value.atr, m.slBufferAtr);
      if Tightens(r.direction, r.sl, candidate) {
        MoveStopTo(i, candidate, false, fault);
      }
    }

    /** Exits, then both managements; nothing without an open ticketed record. */
    method ReconcilePositionsStep(view: View, s: Schedule) returns (completed: bool)
      requires Connected() && Distinct(broker.State()) && ValidSchedule(s)
      modifies this`prices, this`table, this`events, broker`prices, broker`balance, broker`positions, broker`closed
      ensures Connected() && State() == Run(cfg, old(State()), PositionOps(cfg, old(State()), view, s))
      ensures completed == !PositionsRaise(cfg, old(State()), view, s)
    {
      hide ExitOps, IctOps, IctAborts, LineOps, Run, Distinct, Interruptions, Aborts;
      ghost var w := State();
      RunNothing(cfg, w);
      if OpenTickets(table) == {} {
        return true;
      }
      completed := CheckAndSettle(s.settle);
      if !completed {
        return;
      }
      ghost var w1, exits, ict := State(), ExitOps(w, s.settle), IctOps(cfg, State(), view, s.ict, |table|);
      completed := ManageIctPositions(view, s.ict);
      RunConcat(cfg, w, exits, ict);
      if !completed {
        return;
      }
      ghost var w2 := State();
      completed := ManageTrendlinePositions(view, s.lines);
      RunConcat(cfg, w, exits + ict, LineOps(w2, view, s.lines));
    }

    /** One monitor tick on the books that every earlier operation has kept: a reconciliation pass, the
        positions, the account event; an exception ends it. */
    method Tick(view: View, s: Schedule, ghost start: real)
      requires Connected() && Inv(State(), start) && ValidSchedule(s)
      requires AllowedRun(cfg, State(), TickOps(cfg, State(), view, s))
      modifies this, broker`prices, broker`balance, broker`positions, broker`closed
      ensures Connected() && Inv(State(), start)
      ensures State() == Run(cfg, old(State()), TickOps(cfg, old(State()), view, s))
    {
      hide PassOps, PositionOps, PositionsRaise, Run, AllowedRun, Interruptions, Aborts, Balanced, Agree, Booked, PassOk;
      ghost var w := State();
      RunKeeps(cfg, w, TickOps(cfg, w, view, s), start);
      ghost var pass := PassOps(false, |table|, s.resolve);
      PassIsAllowed(cfg, w, view, s, start);
      var completed := ReconcileWithBroker(false, s.resolve);
      if !completed {
        return;
      }
      ghost var w1 := State();
      ghost var positions := PositionOps(cfg, w1, view, s);
      completed := ReconcilePositionsStep(view, s);
      RunConcat(cfg, w, pass, positions);
      if completed {
        var equity := broker.AccountEquity();
        events := events + [AccountUpdated(equity)];
        RunStep(cfg, w, pass + positions, EquityOp);
      } else {
        assert pass + positions + [] == pass + positions;
      }
    }
  }

  lemma RunNothing(cfg: Config, w: World)
    ensures Run(cfg, w, []) == w
  {
  }

  lemma PassSteps(cfg: Config, w: World, gate: bool)
    ensures Apply(cfg, w, BeginOp(gate)) == BeginPass(w, gate)
    ensures Apply(cfg, w, EndOp) == EndPass(w) && Apply(cfg, w, AbortOp) == w.(pass := None)
  {
    hide BeginPass, EndPass;
  }

  lemma LineStepIs(cfg: Config, w: World, i: nat, view: Option<LineView>, fault: Fault)
    ensures Apply(cfg, w, LineOp(i, view, fault)) == ManageLineRow(cfg, w, i, view, fault)
  {
    hide ManageLineRow;
  }

  /** A step under breakeven management: what it finds, where it raises, what it does. */
  lemma StepParts(cfg: Config, w: World, since: seq<Candle>, fault: Fault, i: nat)
    ensures var op := IctStepAt(cfg, w, since, fault, i);
      && Apply(cfg, w, op) == ManageIctRow(cfg, w, i, op.bosClose, op.fault)
      && op == if !Searches(cfg, w, i) then IctOp(i, None, fault)
               else match BreakClose(since, w.table[i].direction)
                    case Success(close) => IctOp(i, close, fault)
                    case Raised(_) => IctOp(i, None, if fault == Raises || fault == StopWriteFails then fault else SearchRaises)
  {
    hide ManageIctRow, BreakClose, Searches;
  }

  lemma ExitsIs(cfg: Config, w: World)
    ensures Apply(cfg, w, ExitsOp) == w.(book := AfterExits(w.book, w.prices))
  {
  }

  lemma ClosedBehind(w: World)
    ensures AfterExits(w.book, w.prices).closed == w.book.closed + Settled(w.book.positions, w.prices, w.book.contractSize)
  {
  }

  /** When the pass of a tick has ended the books are in order. */
  lemma PassIsAllowed(cfg: Config, w: World, view: View, s: Schedule, start: real)
    requires Inv(w, start) && AllowedRun(cfg, w, TickOps(cfg, w, view, s))
    ensures Inv(Run(cfg, w, PassOps(false, |w.table|, s.resolve)), start)
  {
    hide PassOps, PositionOps, PositionsRaise, Run, AllowedRun, Aborts, Inv;
    var pass, all := PassOps(false, |w.table|, s.resolve), TickOps(cfg, w, view, s);
    if all != pass {
      var w1 := Run(cfg, w, pass);
      var rest := PositionOps(cfg, w1, view, s) + (if PositionsRaise(cfg, w1, view, s) then [] else [EquityOp]);
      assert all == pass + rest;
      AllowedConcat(cfg, w, pass, rest);
    }
    RunKeeps(cfg, w, pass, start);
  }

  lemma {:induction false} FindSame(ps: seq<Position>, i: nat, sl: real, t: Ticket)
    requires i < |ps|
    ensures Find(ps[i := ps[i].(sl := Some(sl))], t) == Find(ps, t)
  {
    var qs := ps[i := ps[i].(sl := Some(sl))];
    if i < |ps| - 1 {
      FindSame(ps[..|ps| - 1], i, sl, t);
      assert qs[..|ps| - 1] == ps[..|ps| - 1][i := ps[i].(sl := Some(sl))];
    } else {
      assert qs[..|ps| - 1] == ps[..|ps| - 1];
    }
  }
}
