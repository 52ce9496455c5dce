/** What a run needs of the tickets it draws, none blank, used before or drawn twice, and what follows
    from it: a position that is gone never comes back. */
module TicketSupply {
  import opened Prelude
  import opened PaperBroker
  import opened Ledger
  import opened LedgerInvariants

  function Drawn(ops: seq<Op>): seq<Ticket> {
    if ops == [] then []
    else
      var op := ops[|ops| - 1];
      Drawn(ops[..|ops| - 1]) + (if op.ApproveOp? then [op.t1, op.t2] else [])
  }

  predicate NoRepeats(ts: seq<Ticket>) {
    forall i, j :: 0 <= i < j < |ts| ==> ts[i] != ts[j]
  }

  lemma CloseIssues(w: World, p: nat, price: real, reason: CloseReason, fault: Fault, start: real, t: Ticket)
    requires Inv(w, start) && p < |w.book.positions|
    ensures Issued(CloseAndSettle(w, p, price, reason, fault).book, t) == Issued(w.book, t)
  {
    hide TradeOf, AfterClose, Issued;
    CloseKeeps(w.book, p, price, reason, start, t);
  }

  lemma MoveIssues(w: World, i: nat, p: nat, sl: real, breakeven: bool, fault: Fault, t: Ticket)
    requires i < |w.table| && p < |w.book.positions|
    ensures Issued(MoveStop(w, i, p, sl, breakeven, fault).book, t) == Issued(w.book, t)
  {
    hide Issued, WithStop;
    StopKeeps(w.book, p, sl, t);
  }

  lemma RowIssues(cfg: Config, w: World, i: nat, bosClose: Option<real>, view: Option<LineView>, fault: Fault, start: real, t: Ticket)
    requires Inv(w, start)
    ensures Issued(ManageIctRow(cfg, w, i, bosClose, fault).book, t) == Issued(w.book, t)
    ensures Issued(ManageLineRow(cfg, w, i, view, fault).book, t) == Issued(w.book, t)
  {
    hide Inv, Issued, BreakevenDue, Round2, Risk, CloseAndSettle, MoveStop, TrailCandidate, BeyondLine, Tightens;
    if i < |w.table| && Find(w.book.positions, w.table[i].ticket).Some? {
      var r, m, p := w.table[i], ManagementOf(cfg, w.table[i]), Find(w.book.positions, w.table[i].ticket).value;
      MoveIssues(w, i, p, Round2(r.entry), true, fault, t);
      MoveStopKeeps(w, i, p, Round2(r.entry), true, fault, start);
      SamePositionCount(w, i, p, Round2(r.entry), true, fault);
      if bosClose.Some? {
        CloseIssues(w, p, bosClose.value, OppositeBos, fault, start, t);
        CloseIssues(MoveStop(w, i, p, Round2(r.entry), true, fault), p, bosClose.value, OppositeBos, fault, start, t);
      }
      if ManagedLine(cfg, w, i, view) {
        var v := view.value;
        CloseIssues(w, p, v.close, SafetyLine, fault, start, t);
        MoveIssues(w, i, p, TrailCandidate(r.direction, v.safety.value, v.atr, m.slBufferAtr), false, fault, t);
      }
    }
  }

  predicate SameTickets(a: seq<TradeRecord>, b: seq<TradeRecord>) {
    |a| == |b| && forall i :: 0 <= i < |a| ==> a[i].ticket == b[i].ticket
  }

  lemma SettleTickets(w: World, c: ClosedTrade)
    ensures SameTickets(w.table, Settle(w, c).table)
  {
  }

  lemma CloseTickets(w: World, p: nat, price: real, reason: CloseReason, fault: Fault)
    requires p < |w.book.positions|
    ensures SameTickets(w.table, CloseAndSettle(w, p, price, reason, fault).table)
  {
    hide SameTickets, TradeOf, AfterClose, Settle;
    Unchanged(w.table);
    SettleTickets(AfterCloseAt(w, p, price, reason), TradeOf(w.book.positions[p], price, reason, w.book.contractSize));
  }

  lemma Unchanged(table: seq<TradeRecord>)
    ensures SameTickets(table, table)
  {
  }

  lemma MoveTickets(w: World, i: nat, p: nat, sl: real, breakeven: bool, fault: Fault)
    requires i < |w.table| && p < |w.book.positions|
    ensures SameTickets(w.table, MoveStop(w, i, p, sl, breakeven, fault).table)
  {
  }

  lemma RowTickets(cfg: Config, w: World, i: nat, bosClose: Option<real>, view: Option<LineView>, fault: Fault)
    ensures SameTickets(w.table, ManageIctRow(cfg, w, i, bosClose, fault).table)
    ensures SameTickets(w.table, ManageLineRow(cfg, w, i, view, fault).table)
  {
    hide Risk, BreakevenDue, TrailCandidate, BeyondLine, Tightens, Round2, LastPrice, Find, MoveStop, CloseAndSettle;
    Unchanged(w.table);
    if i < |w.table| && Find(w.book.positions, w.table[i].ticket).Some? {
      var r, m, p := w.table[i], ManagementOf(cfg, w.table[i]), Find(w.book.positions, w.table[i].ticket).value;
      MoveTickets(w, i, p, Round2(r.entry), true, fault);
      SamePositionCount(w, i, p, Round2(r.entry), true, fault);
      if bosClose.Some? {
        CloseTickets(w, p, bosClose.value, OppositeBos, fault);
        CloseTickets(MoveStop(w, i, p, Round2(r.entry), true, fault), p, bosClose.value, OppositeBos, fault);
      }
      if ManagedLine(cfg, w, i, view) {
        var v := view.value;
        CloseTickets(w, p, v.close, SafetyLine, fault);
        MoveTickets(w, i, p, TrailCandidate(r.direction, v.safety.value, v.atr, m.slBufferAtr), false, fault);
      }
    }
  }

  /** Rows keep their tickets, and a new one takes the first ticket of its approval. */
  lemma TableTickets(cfg: Config, w: World, op: Op)
    ensures var w' := Apply(cfg, w, op);
      && |w.table| <= |w'.table| <= |w.table| + 1
      && (forall i :: 0 <= i < |w.table| ==> w'.table[i].ticket == w.table[i].ticket)
      && (|w'.table| > |w.table| ==> op.ApproveOp? && w'.table[|w.table|].ticket == op.t1)
  {
    hide ManageIctRow, ManageLineRow, LastPrice, OpenCount, Equity, AfterExits, Orphans, FirstClosed;
    if op.IctOp? {
      RowTickets(cfg, w, op.i, op.bosClose, None, op.fault);
    } else if op.LineOp? {
      RowTickets(cfg, w, op.i, None, op.view, op.fault);
    }
  }

  lemma ApproveIssues(cfg: Config, w: World, op: Op, t: Ticket)
    requires op.ApproveOp? && t != op.t1 && t != op.t2
    ensures Issued(Apply(cfg, w, op).book, t) == Issued(w.book, t)
  {
    hide OpenCount, LastPrice, Round2;
    var px := LastPrice(w.prices, op.order.symbol);
    if px.Some? {
      var p1, p2 := PositionFor(op.order, op.t1, px.value), PositionFor(op.order, op.t2, px.value);
      LiveSnoc(w.book.positions, p1, t);
      LiveSnoc(w.book.positions + [p1], p2, t);
    }
  }

  lemma StaysFresh(cfg: Config, w: World, op: Op, t: Ticket, start: real)
    requires Inv(w, start) && FreshTicket(w, t) && (op.ApproveOp? ==> t != op.t1 && t != op.t2)
    ensures FreshTicket(Apply(cfg, w, op), t)
  {
    TableTickets(cfg, w, op);
    var w' := Apply(cfg, w, op);
    assert Issued(w'.book, t) == Issued(w.book, t) by {
      match op
      case ApproveOp(_, _, _, _) => ApproveIssues(cfg, w, op, t);
      case ExitsOp => ExitsKeep(w.book, w.prices, start, t);
      case IctOp(i, bosClose, fault) => RowIssues(cfg, w, i, bosClose, None, fault, start, t);
      case LineOp(i, view, fault) => RowIssues(cfg, w, i, None, view, fault, start, t);
      case _ => SameBook(cfg, w, op);
    }
  }

  lemma SameBook(cfg: Config, w: World, op: Op)
    requires !op.ApproveOp? && !op.ExitsOp? && !op.IctOp? && !op.LineOp?
    ensures Apply(cfg, w, op).book == w.book
  {
    hide SettleRow, FirstClosed, FirstOpen, Equity, Orphans;
  }

  /** A run whose drawn tickets were never used and do not repeat is an allowed one. */
  lemma {:induction false} FreshDrawsAllowed(cfg: Config, w: World, ops: seq<Op>, start: real)
    requires Inv(w, start) && NoRepeats(Drawn(ops)) && forall t :: t in Drawn(ops) ==> FreshTicket(w, t)
    ensures AllowedRun(cfg, w, ops)
    ensures forall t :: FreshTicket(w, t) && t !in Drawn(ops) ==> FreshTicket(Run(cfg, w, ops), t)
  {
    hide Inv, Apply, FreshTicket;
    if ops != [] {
      var front, op := ops[..|ops| - 1], ops[|ops| - 1];
      DrawnFront(ops);
      FreshDrawsAllowed(cfg, w, front, start);
      RunKeeps(cfg, w, front, start);
      forall t | FreshTicket(w, t) && t !in Drawn(ops)
        ensures FreshTicket(Run(cfg, w, ops), t)
      {
        StaysFresh(cfg, Run(cfg, w, front), op, t, start);
      }
    }
  }

  lemma DrawnFront(ops: seq<Op>)
    requires ops != [] && NoRepeats(Drawn(ops))
    ensures var front, op := ops[..|ops| - 1], ops[|ops| - 1];
      && NoRepeats(Drawn(front)) && (forall t :: t in Drawn(front) ==> t in Drawn(ops))
      && (op.ApproveOp? ==> op.t1 != op.t2 && op.t1 in Drawn(ops) && op.t2 in Drawn(ops)
                            && op.t1 !in Drawn(front) && op.t2 !in Drawn(front))
  {
    var front, op := Drawn(ops[..|ops| - 1]), ops[|ops| - 1];
    var all, n := Drawn(ops), |front|;
    assert forall i :: 0 <= i < n ==> all[i] == front[i];
    if op.ApproveOp? {
      assert all[n] == op.t1 && all[n + 1] == op.t2;
      assert forall i :: 0 <= i < n ==> front[i] != op.t1 && front[i] != op.t2;
    }
  }

  // ---------- no position comes back ----------

  lemma IssuedKept(cfg: Config, w: World, op: Op, t: Ticket, start: real)
    requires Inv(w, start) && Allowed(w, op) && Issued(w.book, t) >= 1
    ensures Issued(Apply(cfg, w, op).book, t) == Issued(w.book, t)
  {
    hide Issued, Agree, Booked, PassOk;
    match op
    case ApproveOp(_, _, _, _) => ApproveIssues(cfg, w, op, t);
    case ExitsOp => ExitsKeep(w.book, w.prices, start, t);
    case IctOp(i, bosClose, fault) => RowIssues(cfg, w, i, bosClose, None, fault, start, t);
    case LineOp(i, view, fault) => RowIssues(cfg, w, i, None, view, fault, start, t);
    case _ => SameBook(cfg, w, op);
  }

  lemma CloseGrows(w: World, p: nat, price: real, reason: CloseReason, fault: Fault)
    requires p < |w.book.positions|
    ensures w.book.closed <= CloseAndSettle(w, p, price, reason, fault).book.closed
  {
    hide TradeOf;
  }

  lemma RowGrows(cfg: Config, w: World, i: nat, bosClose: Option<real>, view: Option<LineView>, fault: Fault)
    ensures w.book.closed <= ManageIctRow(cfg, w, i, bosClose, fault).book.closed
    ensures w.book.closed <= ManageLineRow(cfg, w, i, view, fault).book.closed
  {
    hide Risk, BreakevenDue, TrailCandidate, BeyondLine, Tightens, Round2, LastPrice, Find, CloseAndSettle;
    if i < |w.table| && Find(w.book.positions, w.table[i].ticket).Some? {
      var r, p := w.table[i], Find(w.book.positions, w.table[i].ticket).value;
      SamePositionCount(w, i, p, Round2(r.entry), true, fault);
      if bosClose.Some? {
        CloseGrows(w, p, bosClose.value, OppositeBos, fault);
        CloseGrows(MoveStop(w, i, p, Round2(r.entry), true, fault), p, bosClose.value, OppositeBos, fault);
      }
      if ManagedLine(cfg, w, i, view) {
        CloseGrows(w, p, view.value.close, SafetyLine, fault);
      }
    }
  }

  /** The history of closed trades only grows. */
  lemma ClosedGrows(cfg: Config, w: World, op: Op)
    ensures w.book.closed <= Apply(cfg, w, op).book.closed
  {
    hide ManageIctRow, ManageLineRow, LastPrice, OpenCount, Equity, Orphans, FirstClosed, Settled, Remaining, SettleRow, FirstOpen;
    match op
    case IctOp(i, bosClose, fault) => RowGrows(cfg, w, i, bosClose, None, fault);
    case LineOp(i, view, fault) => RowGrows(cfg, w, i, None, view, fault);
    case _ =>
  }

  /** A ticket that has been issued is live after a step only if it was live before. */
  lemma LiveBefore(cfg: Config, w: World, op: Op, t: Ticket, start: real)
    requires Inv(w, start) && Allowed(w, op) && Issued(w.book, t) >= 1 && Live(Apply(cfg, w, op).book.positions, t) > 0
    ensures Live(w.book.positions, t) > 0
  {
    var w' := Apply(cfg, w, op);
    IssuedKept(cfg, w, op, t, start);
    ClosedGrows(cfg, w, op);
    assert w'.book.closed == w.book.closed + w'.book.closed[|w.book.closed|..];
    ClosingsConcat(w.book.closed, w'.book.closed[|w.book.closed|..], t);
    assert Issued(w.book, t) <= 1;
    hide Apply, Inv;
  }

  /** Once a position is gone, its ticket is never live again. */
  lemma {:induction false} GoneForGood(cfg: Config, w: World, ops: seq<Op>, t: Ticket, start: real)
    requires Inv(w, start) && AllowedRun(cfg, w, ops) && Issued(w.book, t) >= 1
    ensures Issued(Run(cfg, w, ops).book, t) >= 1
    ensures Live(Run(cfg, w, ops).book.positions, t) > 0 ==> Live(w.book.positions, t) > 0
  {
    hide Inv, Apply, Issued, Live;
    if ops != [] {
      var front := ops[..|ops| - 1];
      GoneForGood(cfg, w, front, t, start);
      RunKeeps(cfg, w, front, start);
      IssuedKept(cfg, Run(cfg, w, front), ops[|ops| - 1], t, start);
      if Live(Run(cfg, w, ops).book.positions, t) > 0 {
        LiveBefore(cfg, Run(cfg, w, front), ops[|ops| - 1], t, start);
      }
    }
  }
}
