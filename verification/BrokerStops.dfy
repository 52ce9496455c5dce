/** The stops at the broker: over any run, which steps loosen one, in terms of the records and of the
    moves that were lost to the table. */
module BrokerStops {
  import opened Prelude
  import opened PaperBroker
  import opened Ledger
  import opened LedgerInvariants
  import opened LedgerStops
  import opened StopAgreement
  import opened TicketSupply

  /** No position that stays has its stop loosened. */
  ghost predicate StopsEvolve(a: seq<Position>, b: seq<Position>) {
    forall p, q :: p in a && q in b && p.ticket == q.ticket ==> NoLooser(p.direction, p.sl, q.sl)
  }

  predicate MovesTicket(cfg: Config, w: World, op: Op, t: Ticket) {
    Moves(cfg, w, op).Some? && w.table[op.i].ticket == t
  }

  /** The stop that the broker last took for the ticket, if the table did not. */
  function LostMove(cfg: Config, w: World, ops: seq<Op>, t: Ticket): Option<real> {
    if ops == [] then None
    else
      var now, op := Run(cfg, w, ops[..|ops| - 1]), ops[|ops| - 1];
      if !MovesTicket(cfg, now, op, t) then LostMove(cfg, w, ops[..|ops| - 1], t)
      else if op.fault == StopWriteFails then Moves(cfg, now, op)
      else None
  }

  /** After the run `ops`: a breakeven move of an unprotected record that the broker has not at its entry
      already, or a trail that goes back behind a trail that was lost; the position stays open. */
  predicate LoosensBroker(cfg: Config, w: World, ops: seq<Op>, op: Op) {
    var now := Run(cfg, w, ops);
    && Moves(cfg, now, op).Some? && !ExitsAfter(cfg, now, op)
    && var r := now.table[op.i];
       var lost := LostMove(cfg, w, ops, r.ticket);
       if op.IctOp? then lost.None? && !Protective(r)
       else lost.Some? && !NoLooser(r.direction, lost, Moves(cfg, now, op))
  }

  // ---------- what a step does to positions and rows ----------

  lemma SamePosition(w: World, p: Position, q: Position, start: real)
    requires Inv(w, start) && p in w.book.positions && q in w.book.positions && p.ticket == q.ticket
    ensures p == q
  {
    assert Issued(w.book, p.ticket) <= 1;
    LiveOnce(w.book.positions, p, q);
  }

  /** What a step may do to a position of that ticket. */
  ghost predicate StopIs(w: World, w': World, t: Ticket, moved: Option<real>) {
    forall p, q :: p in w.book.positions && q in w'.book.positions && p.ticket == t == q.ticket ==>
      q.sl == (if moved.Some? then moved else p.sl) && q.direction == p.direction
  }

  lemma FewerStopIs(w: World, w': World, t: Ticket, start: real)
    requires Inv(w, start) && forall q :: q in w'.book.positions ==> q in w.book.positions
    ensures StopIs(w, w', t, None)
  {
    forall p, q | p in w.book.positions && q in w'.book.positions && p.ticket == t == q.ticket
      ensures p == q
    {
      SamePosition(w, p, q, start);
    }
  }

  lemma MoveStopIs(w: World, i: nat, p: nat, sl: real, breakeven: bool, fault: Fault, t: Ticket, start: real)
    requires Inv(w, start) && i < |w.table| && p < |w.book.positions|
    ensures StopIs(w, MoveStop(w, i, p, sl, breakeven, fault), t, if w.book.positions[p].ticket == t then Some(sl) else None)
  {
    var w', ps := MoveStop(w, i, p, sl, breakeven, fault), w.book.positions;
    forall a, q | a in ps && q in w'.book.positions && a.ticket == t == q.ticket
      ensures q.sl == (if ps[p].ticket == t then Some(sl) else a.sl) && q.direction == a.direction
    {
      var k :| 0 <= k < |w'.book.positions| && w'.book.positions[k] == q;
      assert ps[k] in ps && ps[p] in ps;
      SamePosition(w, a, ps[k], start);
      if ps[p].ticket == t {
        assert Issued(w.book, t) <= 1;
        PositionOnce(ps, p, k);
      }
    }
  }

  lemma CloseStopIs(w: World, w1: World, p: nat, price: real, reason: CloseReason, fault: Fault, t: Ticket, moved: Option<real>)
    requires StopIs(w, w1, t, moved) && p < |w1.book.positions|
    ensures StopIs(w, CloseAndSettle(w1, p, price, reason, fault), t, moved)
  {
    var w' := CloseAndSettle(w1, p, price, reason, fault);
    hide TradeOf, StopIs;
    assert w'.book.positions == RemoveAt(w1.book.positions, p);
    forall q | q in w'.book.positions
      ensures q in w1.book.positions
    {
      RemoveAtMember(w1.book.positions, p, q);
    }
    FewerAgain(w, w1, w', t, moved);
  }

  lemma FewerAgain(w: World, w1: World, w': World, t: Ticket, moved: Option<real>)
    requires StopIs(w, w1, t, moved) && forall q :: q in w'.book.positions ==> q in w1.book.positions
    ensures StopIs(w, w', t, moved)
  {
  }

  lemma ApproveStopIs(cfg: Config, w: World, op: Op, t: Ticket, start: real)
    requires Inv(w, start) && op.ApproveOp? && Allowed(w, op)
    ensures StopIs(w, Apply(cfg, w, op), t, None)
  {
    hide OpenCount, LastPrice, Distinct, Balanced, Agree, Booked, PassOk, Round2;
    var w' := Apply(cfg, w, op);
    forall p, q | p in w.book.positions && q in w'.book.positions && p.ticket == t == q.ticket
      ensures q.sl == p.sl && q.direction == p.direction
    {
      LiveMember(w.book.positions, p);
      assert q in w.book.positions;
      SamePosition(w, p, q, start);
    }
  }

  function MovedTo(cfg: Config, w: World, op: Op, t: Ticket): Option<real> {
    if MovesTicket(cfg, w, op, t) then Moves(cfg, w, op) else None
  }

  lemma IctStopIs(cfg: Config, w: World, op: Op, t: Ticket, start: real)
    requires Inv(w, start) && op.IctOp?
    ensures StopIs(w, Apply(cfg, w, op), t, MovedTo(cfg, w, op, t))
  {
    hide Inv, StopIs, BreakevenDue, Risk, CloseAndSettle, MoveStop, Round2, LastPrice, Find;
    FewerStopIs(w, w, t, start);
    if op.fault != Raises && op.i < |w.table| && ManagedIct(cfg, w, op.i) {
      var r, p := w.table[op.i], Find(w.book.positions, w.table[op.i].ticket).value;
      MoveStopIs(w, op.i, p, Round2(r.entry), true, op.fault, t, start);
      SamePositionCount(w, op.i, p, Round2(r.entry), true, op.fault);
      var w1 := MoveStop(w, op.i, p, Round2(r.entry), true, op.fault);
      if op.bosClose.Some? {
        CloseStopIs(w, w, p, op.bosClose.value, OppositeBos, op.fault, t, None);
        CloseStopIs(w, w1, p, op.bosClose.value, OppositeBos, op.fault, t, if r.ticket == t then Some(Round2(r.entry)) else None);
      }
    }
  }

  lemma LineStopIs(cfg: Config, w: World, op: Op, t: Ticket, start: real)
    requires Inv(w, start) && op.LineOp?
    ensures StopIs(w, Apply(cfg, w, op), t, MovedTo(cfg, w, op, t))
  {
    hide Inv, StopIs, TrailCandidate, CloseAndSettle, MoveStop, Tightens, BeyondLine, Find;
    FewerStopIs(w, w, t, start);
    if op.i < |w.table| && ManagedLine(cfg, w, op.i, op.view) {
      var r, m, p := w.table[op.i], ManagementOf(cfg, w.table[op.i]), Find(w.book.positions, w.table[op.i].ticket).value;
      var v := op.view.value;
      var candidate := TrailCandidate(r.direction, v.safety.value, v.atr, m.slBufferAtr);
      MoveStopIs(w, op.i, p, candidate, false, op.fault, t, start);
      CloseStopIs(w, w, p, v.close, SafetyLine, op.fault, t, None);
    }
  }

  /** A position that stays keeps its stop, unless the step moves that of its ticket. */
  lemma StepStopIs(cfg: Config, w: World, op: Op, t: Ticket, start: real)
    requires Inv(w, start) && Allowed(w, op)
    ensures StopIs(w, Apply(cfg, w, op), t, MovedTo(cfg, w, op, t))
  {
    hide Inv, StopIs;
    match op
    case ApproveOp(_, _, _, _) => ApproveStopIs(cfg, w, op, t, start);
    case ExitsOp =>
      forall q | q in ExitsAt(w).book.positions
        ensures q in w.book.positions
      {
        RemainingMember(w.book.positions, w.prices, q);
      }
      FewerStopIs(w, ExitsAt(w), t, start);
    case IctOp(_, _, _) => IctStopIs(cfg, w, op, t, start);
    case LineOp(_, _, _) => LineStopIs(cfg, w, op, t, start);
    case _ =>
      SameBook(cfg, w, op);
      FewerStopIs(w, Apply(cfg, w, op), t, start);
  }

  /** What a step does to a row: its stop takes a move that reaches the table, what identifies it stays. */
  predicate RowKept(r: TradeRecord, s: TradeRecord, moved: Option<real>) {
    && s.ticket == r.ticket && s.strategy == r.strategy && s.direction == r.direction && s.entry == r.entry
    && s.sl == (if moved.Some? then moved else r.sl)
  }

  function TableMove(cfg: Config, w: World, op: Op, j: nat): Option<real> {
    if Moves(cfg, w, op).Some? && op.i == j && op.fault != StopWriteFails then Moves(cfg, w, op) else None
  }

  lemma SettleRows(w: World, c: ClosedTrade, j: nat)
    requires j < |w.table|
    ensures |Settle(w, c).table| == |w.table| && RowKept(w.table[j], Settle(w, c).table[j], None)
  {
  }

  lemma CloseRows(w: World, w1: World, p: nat, price: real, reason: CloseReason, fault: Fault, j: nat, moved: Option<real>)
    requires j < |w.table| == |w1.table| && p < |w1.book.positions| && RowKept(w.table[j], w1.table[j], moved)
    ensures var w' := CloseAndSettle(w1, p, price, reason, fault); |w'.table| == |w.table| && RowKept(w.table[j], w'.table[j], moved)
  {
    hide TradeOf, Settle;
    SettleRows(AfterCloseAt(w1, p, price, reason), TradeOf(w1.book.positions[p], price, reason, w1.book.contractSize), j);
  }

  lemma IctRows(cfg: Config, w: World, op: Op, j: nat)
    requires op.IctOp? && j < |w.table|
    ensures var w' := Apply(cfg, w, op); |w'.table| == |w.table| && RowKept(w.table[j], w'.table[j], TableMove(cfg, w, op, j))
  {
    hide BreakevenDue, Risk, CloseAndSettle, Round2, WithStop, Find;
    if op.fault != Raises && op.i < |w.table| && ManagedIct(cfg, w, op.i) {
      var r, p := w.table[op.i], Find(w.book.positions, w.table[op.i].ticket).value;
      SamePositionCount(w, op.i, p, Round2(r.entry), true, op.fault);
      var w1 := MoveStop(w, op.i, p, Round2(r.entry), true, op.fault);
      if op.bosClose.Some? {
        CloseRows(w, w, p, op.bosClose.value, OppositeBos, op.fault, j, None);
        if op.fault != StopWriteFails {
          CloseRows(w, w1, p, op.bosClose.value, OppositeBos, op.fault, j, if op.i == j then Some(Round2(r.entry)) else None);
        }
      }
    }
  }

  lemma LineRows(cfg: Config, w: World, op: Op, j: nat)
    requires op.LineOp? && j < |w.table|
    ensures var w' := Apply(cfg, w, op); |w'.table| == |w.table| && RowKept(w.table[j], w'.table[j], TableMove(cfg, w, op, j))
  {
    hide TrailCandidate, CloseAndSettle, Tightens, BeyondLine, WithStop, Find;
    if op.i < |w.table| && ManagedLine(cfg, w, op.i, op.view) {
      var p := Find(w.book.positions, w.table[op.i].ticket).value;
      CloseRows(w, w, p, op.view.value.close, SafetyLine, op.fault, j, None);
    }
  }

  lemma StepRows(cfg: Config, w: World, op: Op, j: nat)
    requires j < |w.table|
    ensures j < |Apply(cfg, w, op).table| && RowKept(w.table[j], Apply(cfg, w, op).table[j], TableMove(cfg, w, op, j))
  {
    hide ManageIctRow, ManageLineRow, Settle, FirstClosed, LastPrice, OpenCount, Round2;
    match op
    case IctOp(_, _, _) => IctRows(cfg, w, op, j);
    case LineOp(_, _, _) => LineRows(cfg, w, op, j);
    case SettleOp(k, _) =>
      if k < |w.book.closed| {
        SettleRows(w, w.book.closed[k], j);
      }
    case ResolveOp(i, _) =>
      if Resolves(w, i) && FirstClosed(w.book.closed, w.table[i].ticket).Some? {
        SettleRows(w, FirstClosed(w.book.closed, w.table[i].ticket).value, j);
      }
    case _ =>
  }

  // ---------- what a lost move says ----------

  /** A lost move is one of a recorded ticket; under breakeven management it is one to the entry. */
  ghost predicate LostKnown(cfg: Config, w: World, t: Ticket, lost: Option<real>) {
    lost.Some? ==>
      exists i :: 0 <= i < |w.table| && w.table[i].ticket == t && (ManagementOf(cfg, w.table[i]).Ict? ==> lost == Some(w.table[i].entry))
  }

  /** The stop at the broker is the record's, or the move that was lost to the table. */
  ghost predicate StopKnown(w: World, t: Ticket, lost: Option<real>) {
    forall i, p :: 0 <= i < |w.table| && p in w.book.positions && w.table[i].ticket == t == p.ticket ==>
      p.sl == if lost.Some? then lost else w.table[i].sl
  }

  function LostAfter(cfg: Config, w: World, op: Op, t: Ticket, lost: Option<real>): Option<real> {
    if !MovesTicket(cfg, w, op, t) then lost else if op.fault == StopWriteFails then Moves(cfg, w, op) else None
  }

  lemma LostKnownStep(cfg: Config, w: World, op: Op, t: Ticket, lost: Option<real>, start: real)
    requires Inv(w, start) && LostKnown(cfg, w, t, lost)
    ensures LostKnown(cfg, Apply(cfg, w, op), t, LostAfter(cfg, w, op, t, lost))
  {
    var next := LostAfter(cfg, w, op, t, lost);
    if next.Some? {
      var i :| 0 <= i < |w.table| && w.table[i].ticket == t
               && (ManagementOf(cfg, w.table[i]).Ict? ==> next == Some(w.table[i].entry)) by {
        if MovesTicket(cfg, w, op, t) {
          MovesToEntry(cfg, w, op, start);
        }
      }
      StepRows(cfg, w, op, i);
      hide Apply, Moves;
      assert ManagementOf(cfg, Apply(cfg, w, op).table[i]) == ManagementOf(cfg, w.table[i]);
    }
  }

  lemma MovesToEntry(cfg: Config, w: World, op: Op, start: real)
    requires Inv(w, start) && Moves(cfg, w, op).Some?
    ensures ManagementOf(cfg, w.table[op.i]).Ict? <==> op.IctOp?
    ensures op.IctOp? ==> Moves(cfg, w, op) == Some(w.table[op.i].entry)
  {
    if op.IctOp? {
      ManagedRow(cfg, w, op.i, start);
    }
    hide Inv, Round2, Risk, BreakevenDue;
  }

  lemma StopKnownStep(cfg: Config, w: World, op: Op, t: Ticket, lost: Option<real>, start: real)
    requires Inv(w, start) && Allowed(w, op) && StopKnown(w, t, lost) && LostKnown(cfg, w, t, lost)
    ensures StopKnown(Apply(cfg, w, op), t, LostAfter(cfg, w, op, t, lost))
  {
    var w', next := Apply(cfg, w, op), LostAfter(cfg, w, op, t, lost);
    StepStopIs(cfg, w, op, t, start);
    forall i, q | 0 <= i < |w'.table| && q in w'.book.positions && w'.table[i].ticket == t == q.ticket
      ensures q.sl == if next.Some? then next else w'.table[i].sl
    {
      if i < |w.table| {
        StepRows(cfg, w, op, i);
        WasThere(cfg, w, op, i, q, start);
        var p :| p in w.book.positions && p.ticket == t;
        OnlyMoved(cfg, w, op, i, start);
        hide Apply, Moves, Inv;
      } else {
        FirstStop(cfg, w, op, i, q, lost);
      }
    }
  }

  /** The position of an old row was there before. */
  lemma WasThere(cfg: Config, w: World, op: Op, i: nat, q: Position, start: real)
    requires Inv(w, start) && Allowed(w, op) && i < |w.table| && q in Apply(cfg, w, op).book.positions && w.table[i].ticket == q.ticket
    ensures exists p :: p in w.book.positions && p.ticket == q.ticket
  {
    if Issued(w.book, q.ticket) == 0 {
      NeverLive(cfg, w, op, i, start);
      LiveMember(Apply(cfg, w, op).book.positions, q);
      assert false;
    } else {
      LiveMember(Apply(cfg, w, op).book.positions, q);
      LiveBefore(cfg, w, op, q.ticket, start);
      assert w.book.positions[Find(w.book.positions, q.ticket).value] in w.book.positions;
    }
  }

  /** A ticket that stands in the table is not drawn. */
  lemma NeverLive(cfg: Config, w: World, op: Op, i: nat, start: real)
    requires Inv(w, start) && Allowed(w, op) && i < |w.table| && Issued(w.book, w.table[i].ticket) == 0
    ensures Live(Apply(cfg, w, op).book.positions, w.table[i].ticket) == 0
  {
    var t := w.table[i].ticket;
    assert Issued(Apply(cfg, w, op).book, t) == 0 by {
      hide Issued, Agree, Booked, PassOk;
      match op
      case ApproveOp(_, _, _, _) => ApproveIssues(cfg, w, op, t);
      case ExitsOp => ExitsKeep(w.book, w.prices, start, t);
      case IctOp(j, bosClose, fault) => RowIssues(cfg, w, j, bosClose, None, fault, start, t);
      case LineOp(j, view, fault) => RowIssues(cfg, w, j, None, view, fault, start, t);
      case _ => SameBook(cfg, w, op);
    }
  }

  /** A step that moves the ticket of a row moves that row. */
  lemma OnlyMoved(cfg: Config, w: World, op: Op, i: nat, start: real)
    requires Inv(w, start) && i < |w.table|
    ensures MovesTicket(cfg, w, op, w.table[i].ticket) <==> Moves(cfg, w, op).Some? && op.i == i
  {
    if MovesTicket(cfg, w, op, w.table[i].ticket) {
      OnlyRow(w, op.i, Find(w.book.positions, w.table[op.i].ticket).value, start);
    }
    hide Inv, Moves;
  }

  /** A new row has the stop of its position, and nothing was lost of it yet. */
  lemma FirstStop(cfg: Config, w: World, op: Op, i: nat, q: Position, lost: Option<real>)
    requires Allowed(w, op) && LostKnown(cfg, w, q.ticket, lost)
    requires |w.table| <= i < |Apply(cfg, w, op).table| && q in Apply(cfg, w, op).book.positions
    requires Apply(cfg, w, op).table[i].ticket == q.ticket
    ensures lost.None? && op.ApproveOp? && q.sl == Apply(cfg, w, op).table[i].sl
  {
    TableTickets(cfg, w, op);
    hide OpenCount, LastPrice, Round2;
    if q in w.book.positions {
      LiveMember(w.book.positions, q);
    }
  }

  lemma {:induction false} LostRun(cfg: Config, w: World, ops: seq<Op>, t: Ticket, start: real)
    requires Inv(w, start) && StopsSame(w) && AllowedRun(cfg, w, ops)
    ensures LostKnown(cfg, Run(cfg, w, ops), t, LostMove(cfg, w, ops, t))
    ensures StopKnown(Run(cfg, w, ops), t, LostMove(cfg, w, ops, t))
  {
    hide Inv, Apply, LostKnown, StopKnown, Moves;
    if ops == [] {
      NothingLost(cfg, w, t);
    } else {
      var before, op := ops[..|ops| - 1], ops[|ops| - 1];
      LostRun(cfg, w, before, t, start);
      RunKeeps(cfg, w, before, start);
      LostKnownStep(cfg, Run(cfg, w, before), op, t, LostMove(cfg, w, before, t), start);
      StopKnownStep(cfg, Run(cfg, w, before), op, t, LostMove(cfg, w, before, t), start);
    }
  }

  lemma NothingLost(cfg: Config, w: World, t: Ticket)
    requires StopsSame(w)
    ensures LostKnown(cfg, w, t, None) && StopKnown(w, t, None)
  {
  }

  // ---------- which steps loosen ----------

  /** The position of a move without an exit is still there. */
  lemma MovedStays(cfg: Config, w: World, op: Op)
    requires Moves(cfg, w, op).Some? && !ExitsAfter(cfg, w, op)
    ensures exists p, q :: p in w.book.positions && q in Apply(cfg, w, op).book.positions && p.ticket == w.table[op.i].ticket == q.ticket
  {
    hide BreakevenDue, Risk, TrailCandidate, Tightens, BeyondLine, Round2;
    var k := Find(w.book.positions, w.table[op.i].ticket).value;
    assert w.book.positions[k] in w.book.positions && Apply(cfg, w, op).book.positions[k] in Apply(cfg, w, op).book.positions;
  }

  /** The position of a move with an exit is gone. */
  lemma ExitedGone(cfg: Config, w: World, op: Op, q: Position, start: real)
    requires Inv(w, start) && Moves(cfg, w, op).Some? && ExitsAfter(cfg, w, op) && q in Apply(cfg, w, op).book.positions
    ensures q.ticket != w.table[op.i].ticket
  {
    var t := w.table[op.i].ticket;
    var k := Find(w.book.positions, t).value;
    var w1 := MoveStop(w, op.i, k, Round2(w.table[op.i].entry), true, op.fault);
    MoveStopKeeps(w, op.i, k, Round2(w.table[op.i].entry), true, op.fault, start);
    assert w1.book.positions[k].ticket == t;
    LiveWithout(w1.book.positions, k, t);
    assert Issued(w1.book, t) <= 1;
    assert Apply(cfg, w, op).book.positions == RemoveAt(w1.book.positions, k) by {
      hide TradeOf, Round2, BreakevenDue, Risk, Inv;
    }
    LiveMember(Apply(cfg, w, op).book.positions, q);
  }

  /** A step loosens a stop at the broker exactly when it is one of those. */
  lemma StepEvolvesIff(cfg: Config, w: World, ops: seq<Op>, op: Op, start: real)
    requires Inv(w, start) && StopsSame(w) && AllowedRun(cfg, w, ops) && Allowed(Run(cfg, w, ops), op)
    ensures var now := Run(cfg, w, ops);
      StopsEvolve(now.book.positions, Apply(cfg, now, op).book.positions) <==> !LoosensBroker(cfg, w, ops, op)
  {
    var now := Run(cfg, w, ops);
    RunKeeps(cfg, w, ops, start);
    hide Run, AllowedRun, LostMove, Inv;
    forall p, q | p in now.book.positions && q in Apply(cfg, now, op).book.positions && p.ticket == q.ticket
      ensures NoLooser(p.direction, p.sl, q.sl) || LoosensBroker(cfg, w, ops, op)
    {
      PairEvolves(cfg, w, ops, op, p, q, start);
    }
    if LoosensBroker(cfg, w, ops, op) {
      MovedStays(cfg, now, op);
      var p, q :| p in now.book.positions && q in Apply(cfg, now, op).book.positions && p.ticket == now.table[op.i].ticket == q.ticket;
      PairEvolves(cfg, w, ops, op, p, q, start);
    }
  }

  lemma PairEvolves(cfg: Config, w: World, ops: seq<Op>, op: Op, p: Position, q: Position, start: real)
    requires Inv(w, start) && StopsSame(w) && AllowedRun(cfg, w, ops) && Allowed(Run(cfg, w, ops), op)
    requires var now := Run(cfg, w, ops);
      p in now.book.positions && q in Apply(cfg, now, op).book.positions && p.ticket == q.ticket
    ensures NoLooser(p.direction, p.sl, q.sl)
       <==> !(LoosensBroker(cfg, w, ops, op) && MovesTicket(cfg, Run(cfg, w, ops), op, p.ticket))
  {
    var now, lost := Run(cfg, w, ops), LostMove(cfg, w, ops, p.ticket);
    RunKeeps(cfg, w, ops, start);
    LostRun(cfg, w, ops, p.ticket, start);
    hide Run, AllowedRun, LostMove;
    StepStopIs(cfg, now, op, p.ticket, start);
    if MovesTicket(cfg, now, op, p.ticket) {
      var r := now.table[op.i];
      assert Matches(r, p);
      MovesToEntry(cfg, now, op, start);
      if ExitsAfter(cfg, now, op) {
        ExitedGone(cfg, now, op, q, start);
        assert false;
      }
      OnlyRow(now, op.i, Find(now.book.positions, r.ticket).value, start);
      if op.IctOp? {
        ManagedRow(cfg, now, op.i, start);
        hide Apply, Inv, Risk, Protective;
      } else {
        TrailTightens(cfg, now, op);
        hide Apply, Inv, Risk, Protective;
      }
    }
  }

  lemma TrailTightens(cfg: Config, w: World, op: Op)
    requires Moves(cfg, w, op).Some? && op.LineOp?
    ensures NoLooser(w.table[op.i].direction, w.table[op.i].sl, Moves(cfg, w, op))
  {
    hide TrailCandidate;
  }

  // ---------- whole runs ----------

  ghost predicate StopsEvolveThroughout(cfg: Config, w: World, ops: seq<Op>) {
    ops == []
    || (StopsEvolveThroughout(cfg, w, ops[..|ops| - 1])
        && StopsEvolve(Run(cfg, w, ops[..|ops| - 1]).book.positions, Run(cfg, w, ops).book.positions))
  }

  predicate NeverLoosensBroker(cfg: Config, w: World, ops: seq<Op>) {
    ops == [] || (NeverLoosensBroker(cfg, w, ops[..|ops| - 1]) && !LoosensBroker(cfg, w, ops[..|ops| - 1], ops[|ops| - 1]))
  }

  /** Over any run, with faults and interruptions, no step loosens a stop at the broker exactly when none
      is a breakeven move of an unprotected record that the broker has not at its entry already, or a
      trail that goes back behind one that was lost to the table. */
  lemma {:induction false} BrokerRatchetIff(cfg: Config, w: World, ops: seq<Op>, start: real)
    requires Inv(w, start) && StopsSame(w) && AllowedRun(cfg, w, ops)
    ensures StopsEvolveThroughout(cfg, w, ops) <==> NeverLoosensBroker(cfg, w, ops)
  {
    hide Inv, Apply, StopsSame, StopsEvolve, LoosensBroker;
    if ops != [] {
      BrokerRatchetIff(cfg, w, ops[..|ops| - 1], start);
      StepEvolvesIff(cfg, w, ops[..|ops| - 1], ops[|ops| - 1], start);
    }
  }

  /** The broker takes a trail that the table loses. */
  predicate LosesTrail(cfg: Config, w: World, op: Op) {
    op.LineOp? && LosesStop(cfg, w, op)
  }

  predicate NoTrailLost(cfg: Config, w: World, ops: seq<Op>) {
    ops == [] || (NoTrailLost(cfg, w, ops[..|ops| - 1]) && !LosesTrail(cfg, Run(cfg, w, ops[..|ops| - 1]), ops[|ops| - 1]))
  }

  /** A lost move is one of a record under breakeven management. */
  ghost predicate LostUnderIct(cfg: Config, w: World, t: Ticket, lost: Option<real>) {
    lost.Some? ==> exists i :: 0 <= i < |w.table| && w.table[i].ticket == t && ManagementOf(cfg, w.table[i]).Ict?
  }

  lemma {:induction false} LostBreakevens(cfg: Config, w: World, ops: seq<Op>, t: Ticket)
    requires NoTrailLost(cfg, w, ops)
    ensures LostUnderIct(cfg, Run(cfg, w, ops), t, LostMove(cfg, w, ops, t))
  {
    hide Apply;
    if ops != [] {
      var before, op := Run(cfg, w, ops[..|ops| - 1]), ops[|ops| - 1];
      LostBreakevens(cfg, w, ops[..|ops| - 1], t);
      if LostMove(cfg, w, ops, t).Some? {
        var i :| 0 <= i < |before.table| && before.table[i].ticket == t && ManagementOf(cfg, before.table[i]).Ict?;
        StepRows(cfg, before, op, i);
        hide Run, Moves;
        assert ManagementOf(cfg, Apply(cfg, before, op).table[i]) == ManagementOf(cfg, before.table[i]);
      }
    }
  }

  lemma NothingToLoosen(cfg: Config, w: World, ops: seq<Op>, op: Op, start: real)
    requires Inv(w, start) && AllowedRun(cfg, w, ops) && NoTrailLost(cfg, w, ops) && Protected(cfg, Run(cfg, w, ops))
    ensures !LoosensBroker(cfg, w, ops, op)
  {
    var now := Run(cfg, w, ops);
    RunKeeps(cfg, w, ops, start);
    hide Run, AllowedRun, NoTrailLost, LostMove;
    if Moves(cfg, now, op).Some? {
      var r, k := now.table[op.i], Find(now.book.positions, now.table[op.i].ticket).value;
      LostBreakevens(cfg, w, ops, r.ticket);
      OnlyRow(now, op.i, k, start);
      MovesToEntry(cfg, now, op, start);
      assert now.book.positions[k] in now.book.positions;
      hide Inv, Moves, Protective;
    }
  }

  lemma {:induction false} ProtectiveNeverLoosensBroker(cfg: Config, w: World, ops: seq<Op>, start: real)
    requires Inv(w, start) && Protected(cfg, w) && AllowedRun(cfg, w, ops) && ProtectiveRun(cfg, w, ops) && NoTrailLost(cfg, w, ops)
    ensures NeverLoosensBroker(cfg, w, ops)
  {
    hide Inv, Protected, Run, FillsProtective, LoosensBroker, LosesTrail;
    if ops != [] {
      var before := ops[..|ops| - 1];
      ProtectiveNeverLoosensBroker(cfg, w, before, start);
      ProtectiveNeverLoosens(cfg, w, before, start);
      NothingToLoosen(cfg, w, before, ops[|ops| - 1], start);
    }
  }

  /** A position that is there at the end was there throughout, and its stop only tightened. */
  lemma {:induction false} ThroughoutNoLooser(cfg: Config, w: World, ops: seq<Op>, p: Position, q: Position, start: real)
    requires Inv(w, start) && AllowedRun(cfg, w, ops) && StopsEvolveThroughout(cfg, w, ops)
    requires p in w.book.positions && q in Run(cfg, w, ops).book.positions && p.ticket == q.ticket
    ensures NoLooser(p.direction, p.sl, q.sl) && q.direction == p.direction
  {
    hide Inv, Apply, Moves;
    if ops == [] {
      SamePosition(w, p, q, start);
    } else {
      var before, op := ops[..|ops| - 1], ops[|ops| - 1];
      var now := Run(cfg, w, before);
      LiveMember(w.book.positions, p);
      LiveMember(Run(cfg, w, ops).book.positions, q);
      RunKeeps(cfg, w, before, start);
      GoneForGood(cfg, w, before, p.ticket, start);
      LiveBefore(cfg, now, op, p.ticket, start);
      var m := now.book.positions[Find(now.book.positions, p.ticket).value];
      assert m in now.book.positions && m.ticket == p.ticket;
      ThroughoutNoLooser(cfg, w, before, p, m, start);
      StepStopIs(cfg, now, op, p.ticket, start);
    }
  }

  /** In particular when breakeven-managed orders are filled on the protective side and no trail is lost:
      a lost breakeven move does no harm. */
  lemma BrokerStopsNeverLoosen(cfg: Config, w: World, ops: seq<Op>, start: real, p: Position, q: Position)
    requires Inv(w, start) && StopsSame(w) && Protected(cfg, w)
    requires AllowedRun(cfg, w, ops) && ProtectiveRun(cfg, w, ops) && NoTrailLost(cfg, w, ops)
    requires p in w.book.positions && q in Run(cfg, w, ops).book.positions && p.ticket == q.ticket
    ensures NoLooser(p.direction, p.sl, q.sl)
  {
    hide Inv, Run, Protected, StopsSame;
    ProtectiveNeverLoosensBroker(cfg, w, ops, start);
    BrokerRatchetIff(cfg, w, ops, start);
    ThroughoutNoLooser(cfg, w, ops, p, q, start);
  }
}
