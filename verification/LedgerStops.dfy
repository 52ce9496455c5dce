/** How records evolve: a finished record never changes again, and the stop of an open one only
    ever tightens. */
module LedgerStops {
  import opened Prelude
  import opened PaperBroker
  import opened Ledger
  import opened LedgerInvariants

  predicate NoLooser(d: Direction, before: Option<real>, after: Option<real>) {
    before.None? || (after.Some? && (if d == Long then before.value <= after.value else before.value >= after.value))
  }

  predicate RowEvolves(r: TradeRecord, s: TradeRecord) {
    && r.ticket == s.ticket && r.strategy == s.strategy && r.symbol == s.symbol && r.direction == s.direction
    && r.volume == s.volume && r.entry == s.entry && r.tp == s.tp && r.riskAmount == s.riskAmount
    && (r.status != Open ==> s == r)
    && (s.status == Open ==> NoLooser(r.direction, r.sl, s.sl))
  }

  /** No record is lost, none is reopened or rewritten once finished, and no open stop loosens. */
  ghost predicate Evolves(a: seq<TradeRecord>, b: seq<TradeRecord>) {
    |a| <= |b| && forall i :: 0 <= i < |a| ==> RowEvolves(a[i], b[i])
  }

  lemma EvolvesTransitive(a: seq<TradeRecord>, b: seq<TradeRecord>, c: seq<TradeRecord>)
    requires Evolves(a, b) && Evolves(b, c)
    ensures Evolves(a, c)
  {
    forall i | 0 <= i < |a|
      ensures RowEvolves(a[i], c[i])
    {
      assert RowEvolves(a[i], b[i]) && RowEvolves(b[i], c[i]);
    }
  }

  /** The initial stop is on the protective side of the entry (or carries no risk at all). */
  predicate Protective(r: TradeRecord) {
    Risk(r) > 0.0 ==> NoLooser(r.direction, r.sl, Some(r.entry))
  }

  /** Every live position under breakeven management is protected. */
  ghost predicate Protected(cfg: Config, w: World) {
    forall i, p | 0 <= i < |w.table| && p in w.book.positions && w.table[i].ticket == p.ticket ::
      ManagementOf(cfg, w.table[i]).Ict? ==> Protective(w.table[i])
  }

  /** An approved order of a breakeven-managed strategy is filled on the right side of its stop. */
  ghost predicate FillsProtective(cfg: Config, w: World, op: Op) {
    op.ApproveOp? && LastPrice(w.prices, op.order.symbol).Some? ==>
      var r := RecordFor(op.order, PositionFor(op.order, op.t1, LastPrice(w.prices, op.order.symbol).value));
      ManagementOf(cfg, r).Ict? ==> Protective(r)
  }

  /** The move to breakeven tightens the stop exactly when it was on the protective side. */
  lemma BreakevenTightensIff(cfg: Config, w: World, i: nat, start: real)
    requires Inv(w, start) && i < |w.table| && ManagementOf(cfg, w.table[i]).Ict?
    requires Find(w.book.positions, w.table[i].ticket).Some? && Risk(w.table[i]) > 0.0
    requires BreakevenDue(ManagementOf(cfg, w.table[i]), w.table[i], LastPrice(w.prices, w.table[i].symbol))
    ensures var r, s := w.table[i], ManageIctRow(cfg, w, i, None, NoFault).table[i];
      s.sl == Some(r.entry) && (NoLooser(r.direction, r.sl, s.sl) <==> Protective(r))
  {
    hide BreakevenDue;
    LiveRow(w, i, start);
    Round2OfWholeCents(w.table[i].entry);
  }

  /** The record of a live position is OPEN, with an entry in whole cents. */
  lemma LiveRow(w: World, i: nat, start: real)
    requires Inv(w, start) && i < |w.table| && Find(w.book.positions, w.table[i].ticket).Some?
    ensures var p := w.book.positions[Find(w.book.positions, w.table[i].ticket).value];
      p in w.book.positions && Matches(w.table[i], p)
  {
  }

  // ---------- stops that move ----------

  /** The stop to which the step moves the broker's, if it does. */
  function Moves(cfg: Config, w: World, op: Op): (sl: Option<real>)
    ensures sl.Some? ==> (op.IctOp? || op.LineOp?) && op.i < |w.table| && Find(w.book.positions, w.table[op.i].ticket).Some?
  {
    match op
    case IctOp(i, _, fault) =>
      if fault != Raises && i < |w.table| && ManagedIct(cfg, w, i)
         && BreakevenDue(ManagementOf(cfg, w.table[i]), w.table[i], LastPrice(w.prices, w.table[i].symbol))
      then Some(Round2(w.table[i].entry)) else None
    case LineOp(i, view, fault) =>
      if fault == Raises || fault == SearchRaises || i >= |w.table| || !ManagedLine(cfg, w, i, view) then None
      else
        var r, v := w.table[i], view.value;
        var candidate := TrailCandidate(r.direction, v.safety.value, v.atr, ManagementOf(cfg, r).slBufferAtr);
        if !BeyondLine(r.direction, v.close, v.safety.value) && Tightens(r.direction, r.sl, candidate) then Some(candidate) else None
    case _ => None
  }

  /** The step closes the position at a structure break after it has looked at breakeven. */
  predicate ExitsAfter(cfg: Config, w: World, op: Op) {
    && op.IctOp? && op.i < |w.table| && ManagementOf(cfg, w.table[op.i]).Ict? && ManagementOf(cfg, w.table[op.i]).earlyExit
    && op.bosClose.Some? && op.fault != SearchRaises && op.fault != StopWriteFails
  }

  /** A breakeven move of an unprotected record that reaches the table and is not followed by a booked
      structure exit. */
  predicate LoosensTable(cfg: Config, w: World, op: Op) {
    && op.IctOp? && Moves(cfg, w, op).Some? && op.fault != StopWriteFails
    && !Protective(w.table[op.i]) && !(ExitsAfter(cfg, w, op) && op.fault == NoFault)
  }

  // ---------- one step: how the table evolves ----------

  lemma SettleEvolves(w: World, c: ClosedTrade)
    ensures Evolves(w.table, Settle(w, c).table)
  {
  }

  lemma SameEvolves(a: seq<TradeRecord>)
    ensures Evolves(a, a)
  {
  }

  lemma CloseAndSettleEvolves(w: World, p: nat, price: real, reason: CloseReason, fault: Fault)
    requires p < |w.book.positions|
    ensures Evolves(w.table, CloseAndSettle(w, p, price, reason, fault).table)
  {
    hide TradeOf, Settle, Evolves;
    SameEvolves(w.table);
    SettleEvolves(AfterCloseAt(w, p, price, reason), TradeOf(w.book.positions[p], price, reason, w.book.contractSize));
  }

  /** Moving the stop of an open record is an evolution exactly when it does not loosen it or does not
      reach the table. */
  lemma MoveStopEvolvesIff(w: World, i: nat, p: nat, sl: real, breakeven: bool, fault: Fault)
    requires i < |w.table| && p < |w.book.positions| && w.table[i].status == Open
    ensures Evolves(w.table, MoveStop(w, i, p, sl, breakeven, fault).table)
       <==> fault == StopWriteFails || NoLooser(w.table[i].direction, w.table[i].sl, Some(sl))
  {
    var w' := MoveStop(w, i, p, sl, breakeven, fault);
    assert fault != StopWriteFails ==> RowEvolves(w.table[i], w'.table[i]) == NoLooser(w.table[i].direction, w.table[i].sl, Some(sl));
  }

  /** A close and its booking finish the record, wherever its stop had been moved. */
  lemma BookedExitEvolves(w: World, i: nat, p: nat, sl: real, fault: Fault, price: real, reason: CloseReason, start: real)
    requires Inv(w, start) && i < |w.table| && p < |w.book.positions| && w.table[i].status == Open
    requires w.table[i].ticket == w.book.positions[p].ticket && fault != StopWriteFails
    ensures var w1 := MoveStop(w, i, p, sl, true, fault);
      |w1.book.positions| == |w.book.positions| && Evolves(w.table, CloseAndSettle(w1, p, price, reason, NoFault).table)
  {
    var w1 := MoveStop(w, i, p, sl, true, fault);
    var c := TradeOf(w1.book.positions[p], price, reason, w.book.contractSize);
    assert c.ticket == w.table[i].ticket;
    OnlyRow(w, i, p, start);
    hide Inv, TradeOf;
    var w2 := AfterCloseAt(w1, p, price, reason);
    assert FirstOpen(w2.table, c.ticket) == Some(i) by {
      assert IsOpenFor(w2.table[i], c.ticket);
    }
    hide FirstOpen;
    assert Settle(w2, c).table == w.table[i := SettleRow(w2.table[i], c)];
    assert RowEvolves(w.table[i], SettleRow(w2.table[i], c));
  }

  /** No other row carries the ticket of a live position. */
  lemma OnlyRow(w: World, i: nat, p: nat, start: real)
    requires Inv(w, start) && i < |w.table| && p < |w.book.positions| && w.table[i].ticket == w.book.positions[p].ticket
    ensures forall j :: 0 <= j < |w.table| && w.table[j].ticket == w.table[i].ticket ==> j == i
  {
    assert w.book.positions[p] in w.book.positions;
    LiveMember(w.book.positions, w.book.positions[p]);
    assert Issued(w.book, "") == 0;
  }

  /** A record under breakeven management is OPEN, in whole cents and, if protected, not loosened. */
  lemma ManagedRow(cfg: Config, w: World, i: nat, start: real)
    requires Inv(w, start) && i < |w.table| && ManagedIct(cfg, w, i)
    ensures var r := w.table[i];
      r.status == Open && Round2(r.entry) == r.entry && (Protective(r) <==> NoLooser(r.direction, r.sl, Some(r.entry)))
  {
    LiveRow(w, i, start);
    Round2OfWholeCents(w.table[i].entry);
    hide Inv;
  }

  lemma IctRowEvolvesIff(cfg: Config, w: World, i: nat, bosClose: Option<real>, fault: Fault, start: real)
    requires Inv(w, start)
    ensures Evolves(w.table, ManageIctRow(cfg, w, i, bosClose, fault).table) <==> !LoosensTable(cfg, w, IctOp(i, bosClose, fault))
  {
    hide BreakevenDue, Inv, Risk, CloseAndSettle, MoveStop, Round2, Evolves, NoLooser, Protective;
    SameEvolves(w.table);
    if fault != Raises && i < |w.table| && ManagedIct(cfg, w, i) {
      var r, p := w.table[i], Find(w.book.positions, w.table[i].ticket).value;
      ManagedRow(cfg, w, i, start);
      MoveStopEvolvesIff(w, i, p, r.entry, true, fault);
      SamePositionCount(w, i, p, r.entry, true, fault);
      if bosClose.Some? {
        CloseAndSettleEvolves(w, p, bosClose.value, OppositeBos, fault);
        if fault == BookingFails {
          UnbookedKeepsTable(MoveStop(w, i, p, r.entry, true, fault), p, bosClose.value, OppositeBos);
        } else if fault != StopWriteFails {
          BookedExitEvolves(w, i, p, r.entry, fault, bosClose.value, OppositeBos, start);
        }
      }
    }
  }

  lemma UnbookedKeepsTable(w: World, p: nat, price: real, reason: CloseReason)
    requires p < |w.book.positions|
    ensures CloseAndSettle(w, p, price, reason, BookingFails).table == w.table
  {
  }

  lemma LineRowEvolves(cfg: Config, w: World, i: nat, view: Option<LineView>, fault: Fault)
    ensures Evolves(w.table, ManageLineRow(cfg, w, i, view, fault).table)
  {
    hide TrailCandidate, CloseAndSettle, MoveStop, Evolves;
    SameEvolves(w.table);
    if i < |w.table| && ManagedLine(cfg, w, i, view) {
      var r, m, p := w.table[i], ManagementOf(cfg, w.table[i]), Find(w.book.positions, w.table[i].ticket).value;
      var v := view.value;
      var candidate := TrailCandidate(r.direction, v.safety.value, v.atr, m.slBufferAtr);
      CloseAndSettleEvolves(w, p, v.close, SafetyLine, fault);
      if Tightens(r.direction, r.sl, candidate) {
        MoveStopEvolvesIff(w, i, p, candidate, false, fault);
      }
    }
  }

  lemma ResolveEvolves(w: World, i: nat)
    ensures Evolves(w.table, ResolveRecord(w, i).table)
  {
    hide FirstClosed, Settle;
    SameEvolves(w.table);
    if Resolves(w, i) && FirstClosed(w.book.closed, w.table[i].ticket).Some? {
      SettleEvolves(w, FirstClosed(w.book.closed, w.table[i].ticket).value);
    }
  }

  lemma ApproveEvolves(cfg: Config, w: World, op: Op)
    requires op.ApproveOp?
    ensures Evolves(w.table, Apply(cfg, w, op).table)
  {
    hide OpenCount, LastPrice, PositionFor;
  }

  /** A step of an allowed run loosens no open stop of the table and rewrites or reopens no finished
      record, except for the breakeven move of an unprotected record. */
  lemma ApplyEvolvesIff(cfg: Config, w: World, op: Op, start: real)
    requires Inv(w, start)
    ensures Evolves(w.table, Apply(cfg, w, op).table) <==> !LoosensTable(cfg, w, op)
  {
    hide Inv, Evolves, ManageIctRow, ManageLineRow, Settle, ResolveRecord;
    SameEvolves(w.table);
    match op
    case ApproveOp(_, _, _, _) => ApproveEvolves(cfg, w, op);
    case ResolveOp(i, _) => ResolveEvolves(w, i);
    case SettleOp(k, _) =>
      if k < |w.book.closed| {
        SettleEvolves(w, w.book.closed[k]);
      }
    case IctOp(i, bosClose, fault) => IctRowEvolvesIff(cfg, w, i, bosClose, fault, start);
    case LineOp(i, view, fault) => LineRowEvolves(cfg, w, i, view, fault);
    case _ =>
  }

  // ---------- one step: how protection is kept ----------

  lemma SettleProtects(cfg: Config, w: World, c: ClosedTrade)
    requires Protected(cfg, w)
    ensures Protected(cfg, Settle(w, c))
  {
    var w' := Settle(w, c);
    forall i, p | 0 <= i < |w'.table| && p in w'.book.positions && w'.table[i].ticket == p.ticket
                  && ManagementOf(cfg, w'.table[i]).Ict?
      ensures Protective(w'.table[i])
    {
      assert w'.table[i].ticket == w.table[i].ticket && ManagementOf(cfg, w.table[i]).Ict?;
      assert Protective(w.table[i]);
    }
  }

  lemma FewerPositions(cfg: Config, w: World, book: Book)
    requires Protected(cfg, w) && forall p :: p in book.positions ==> p in w.book.positions
    ensures Protected(cfg, w.(book := book))
  {
  }

  lemma CloseAndSettleProtects(cfg: Config, w: World, p: nat, price: real, reason: CloseReason, fault: Fault)
    requires Protected(cfg, w) && p < |w.book.positions|
    ensures Protected(cfg, CloseAndSettle(w, p, price, reason, fault))
  {
    hide Protected, TradeOf, Settle;
    var w1 := AfterCloseAt(w, p, price, reason);
    forall q | q in w1.book.positions
      ensures q in w.book.positions
    {
      RemoveAtMember(w.book.positions, p, q);
    }
    FewerPositions(cfg, w, w1.book);
    SettleProtects(cfg, w1, TradeOf(w.book.positions[p], price, reason, w.book.contractSize));
  }

  lemma MoveStopProtects(cfg: Config, w: World, i: nat, p: nat, sl: real, breakeven: bool, fault: Fault, start: real)
    requires Inv(w, start) && Protected(cfg, w) && i < |w.table| && p < |w.book.positions|
    requires w.table[i].ticket == w.book.positions[p].ticket
    requires ManagementOf(cfg, w.table[i]).Ict? ==> sl == w.table[i].entry
    ensures Protected(cfg, MoveStop(w, i, p, sl, breakeven, fault))
  {
    var w' := MoveStop(w, i, p, sl, breakeven, fault);
    assert w.book.positions[p] in w.book.positions && Matches(w.table[i], w.book.positions[p]);
    MovedPositions(w.book, p, sl);
    hide Inv, Protective, WithStop;
    forall j, q | 0 <= j < |w'.table| && q in w'.book.positions && w'.table[j].ticket == q.ticket
                  && ManagementOf(cfg, w'.table[j]).Ict?
      ensures Protective(w'.table[j])
    {
      if w'.table[j] == w.table[j] {
        var o :| o in w.book.positions && q == o.(sl := q.sl);
        assert Protective(w.table[j]);
      } else {
        AtEntry(w'.table[j]);
      }
    }
  }

  /** A stop at the entry carries no risk. */
  lemma AtEntry(r: TradeRecord)
    requires r.sl == Some(r.entry)
    ensures Protective(r)
  {
  }

  lemma IctRowProtects(cfg: Config, w: World, i: nat, bosClose: Option<real>, fault: Fault, start: real)
    requires Inv(w, start) && Protected(cfg, w)
    ensures Protected(cfg, ManageIctRow(cfg, w, i, bosClose, fault))
  {
    if i < |w.table| && ManagedIct(cfg, w, i) {
      var r, p := w.table[i], Find(w.book.positions, w.table[i].ticket).value;
      LiveRow(w, i, start);
      Round2OfWholeCents(r.entry);
      hide BreakevenDue, Inv, Protected, Risk, CloseAndSettle, MoveStop, Round2;
      MoveStopProtects(cfg, w, i, p, r.entry, true, fault, start);
      SamePositionCount(w, i, p, r.entry, true, fault);
      if bosClose.Some? {
        CloseAndSettleProtects(cfg, w, p, bosClose.value, OppositeBos, fault);
        CloseAndSettleProtects(cfg, MoveStop(w, i, p, r.entry, true, fault), p, bosClose.value, OppositeBos, fault);
      }
    }
  }

  lemma LineRowProtects(cfg: Config, w: World, i: nat, view: Option<LineView>, fault: Fault, start: real)
    requires Inv(w, start) && Protected(cfg, w)
    ensures Protected(cfg, ManageLineRow(cfg, w, i, view, fault))
  {
    hide Inv, Protected, TrailCandidate, CloseAndSettle, MoveStop, Tightens, BeyondLine;
    if i < |w.table| && ManagedLine(cfg, w, i, view) {
      var r, m, p := w.table[i], ManagementOf(cfg, w.table[i]), Find(w.book.positions, w.table[i].ticket).value;
      var v := view.value;
      CloseAndSettleProtects(cfg, w, p, v.close, SafetyLine, fault);
      MoveStopProtects(cfg, w, i, p, TrailCandidate(r.direction, v.safety.value, v.atr, m.slBufferAtr), false, fault, start);
    }
  }

  lemma ExitsProtect(cfg: Config, w: World)
    requires Protected(cfg, w)
    ensures Protected(cfg, ExitsAt(w))
  {
    forall p | p in ExitsAt(w).book.positions
      ensures p in w.book.positions
    {
      RemainingMember(w.book.positions, w.prices, p);
    }
    FewerPositions(cfg, w, AfterExits(w.book, w.prices));
  }

  lemma ApproveProtects(cfg: Config, w: World, op: Op, start: real)
    requires Inv(w, start) && Protected(cfg, w) && op.ApproveOp? && Allowed(w, op) && FillsProtective(cfg, w, op)
    ensures Protected(cfg, Apply(cfg, w, op))
  {
    hide OpenCount, Protective;
    var w' := Apply(cfg, w, op);
    forall i, p | 0 <= i < |w'.table| && p in w'.book.positions && w'.table[i].ticket == p.ticket
                  && ManagementOf(cfg, w'.table[i]).Ict?
      ensures Protective(w'.table[i])
    {
      if i < |w.table| {
        assert w'.table[i] == w.table[i];
        assert p in w.book.positions;
      }
    }
  }

  lemma ResolveProtects(cfg: Config, w: World, i: nat, start: real)
    requires Inv(w, start) && Protected(cfg, w)
    ensures Protected(cfg, ResolveRecord(w, i))
  {
    if Resolves(w, i) {
      var f := FirstClosed(w.book.closed, w.table[i].ticket);
      HasNoPosition(w, i);
      hide Inv, FirstClosed, Settle;
      if f.Some? {
        SettleProtects(cfg, w, f.value);
      } else {
        FlagProtects(cfg, w, i);
      }
    }
  }

  lemma FlagProtects(cfg: Config, w: World, i: nat)
    requires Protected(cfg, w) && Resolves(w, i) && FirstClosed(w.book.closed, w.table[i].ticket).None?
    ensures Protected(cfg, ResolveRecord(w, i))
  {
    hide FirstClosed, Risk, NoLooser;
    var w' := ResolveRecord(w, i);
    forall j, p | 0 <= j < |w'.table| && p in w'.book.positions && w'.table[j].ticket == p.ticket
                  && ManagementOf(cfg, w'.table[j]).Ict?
      ensures Protective(w'.table[j])
    {
      assert ManagementOf(cfg, w.table[j]) == ManagementOf(cfg, w'.table[j]);
      assert Protective(w.table[j]);
      assert Risk(w'.table[j]) == Risk(w.table[j]) by {
        SameRisk(w'.table[j], w.table[j]);
      }
    }
  }

  lemma SameRisk(r: TradeRecord, s: TradeRecord)
    requires r.entry == s.entry && r.sl == s.sl
    ensures Risk(r) == Risk(s)
  {
  }

  lemma ApplyProtects(cfg: Config, w: World, op: Op, start: real)
    requires Inv(w, start) && Protected(cfg, w) && Allowed(w, op) && FillsProtective(cfg, w, op)
    ensures Protected(cfg, Apply(cfg, w, op))
  {
    match op
    case ApproveOp(_, _, _, _) => ApproveProtects(cfg, w, op, start);
    case ResolveOp(i, _) => ResolveProtects(cfg, w, i, start);
    case ExitsOp => ExitsProtect(cfg, w);
    case SettleOp(k, _) =>
      if k < |w.book.closed| {
        SettleProtects(cfg, w, w.book.closed[k]);
      }
    case IctOp(i, bosClose, fault) => IctRowProtects(cfg, w, i, bosClose, fault, start);
    case LineOp(i, view, fault) => LineRowProtects(cfg, w, i, view, fault, start);
    case _ => SameStoresProtect(cfg, w, Apply(cfg, w, op));
  }

  lemma SameStoresProtect(cfg: Config, w: World, w': World)
    requires Protected(cfg, w) && w'.book == w.book && w'.table == w.table
    ensures Protected(cfg, w')
  {
  }

  /** A protected world gives a step nothing to loosen. */
  lemma ProtectedLoosensNone(cfg: Config, w: World, op: Op, start: real)
    requires Inv(w, start) && Protected(cfg, w)
    ensures !LoosensTable(cfg, w, op)
  {
    if op.IctOp? && op.i < |w.table| && ManagedIct(cfg, w, op.i) {
      LiveRow(w, op.i, start);
    }
    hide Protective, Inv, BreakevenDue, Round2, Risk;
  }

  // ---------- whole runs ----------

  /** At every step of the run the table evolves. */
  ghost predicate EvolvesThroughout(cfg: Config, w: World, ops: seq<Op>) {
    ops == []
    || (EvolvesThroughout(cfg, w, ops[..|ops| - 1])
        && Evolves(Run(cfg, w, ops[..|ops| - 1]).table, Run(cfg, w, ops).table))
  }

  predicate NeverLoosensTable(cfg: Config, w: World, ops: seq<Op>) {
    ops == []
    || (NeverLoosensTable(cfg, w, ops[..|ops| - 1]) && !LoosensTable(cfg, Run(cfg, w, ops[..|ops| - 1]), ops[|ops| - 1]))
  }

  /** Over any run, with faults and interruptions, no step loosens an open stop of the table or rewrites
      or reopens a finished record exactly when none is a breakeven move of an unprotected record that
      reaches the table and is not followed by a booked structure exit. */
  lemma {:induction false} TableRatchetIff(cfg: Config, w: World, ops: seq<Op>, start: real)
    requires Inv(w, start) && AllowedRun(cfg, w, ops)
    ensures EvolvesThroughout(cfg, w, ops) <==> NeverLoosensTable(cfg, w, ops)
  {
    hide Inv, Apply, Evolves, LoosensTable;
    if ops != [] {
      TableRatchetIff(cfg, w, ops[..|ops| - 1], start);
      RunKeeps(cfg, w, ops[..|ops| - 1], start);
      ApplyEvolvesIff(cfg, Run(cfg, w, ops[..|ops| - 1]), ops[|ops| - 1], start);
    }
  }

  lemma {:induction false} ThroughoutEvolves(cfg: Config, w: World, ops: seq<Op>)
    requires EvolvesThroughout(cfg, w, ops)
    ensures Evolves(w.table, Run(cfg, w, ops).table)
  {
    hide Run, Evolves;
    if ops == [] {
      NothingRun(cfg, w);
    } else {
      ThroughoutEvolves(cfg, w, ops[..|ops| - 1]);
      EvolvesTransitive(w.table, Run(cfg, w, ops[..|ops| - 1]).table, Run(cfg, w, ops).table);
    }
  }

  lemma NothingRun(cfg: Config, w: World)
    ensures Run(cfg, w, []) == w && Evolves(w.table, w.table)
  {
  }

  ghost predicate ProtectiveRun(cfg: Config, w: World, ops: seq<Op>) {
    ops == []
    || (ProtectiveRun(cfg, w, ops[..|ops| - 1]) && FillsProtective(cfg, Run(cfg, w, ops[..|ops| - 1]), ops[|ops| - 1]))
  }

  lemma {:induction false} ProtectiveNeverLoosens(cfg: Config, w: World, ops: seq<Op>, start: real)
    requires Inv(w, start) && Protected(cfg, w) && AllowedRun(cfg, w, ops) && ProtectiveRun(cfg, w, ops)
    ensures NeverLoosensTable(cfg, w, ops) && Protected(cfg, Run(cfg, w, ops))
  {
    hide Inv, Protected, Apply, FillsProtective, LoosensTable;
    if ops != [] {
      var before, op := ops[..|ops| - 1], ops[|ops| - 1];
      ProtectiveNeverLoosens(cfg, w, before, start);
      RunKeeps(cfg, w, before, start);
      ProtectedLoosensNone(cfg, Run(cfg, w, before), op, start);
      ApplyProtects(cfg, Run(cfg, w, before), op, start);
    }
  }

  /** In particular when breakeven-managed orders are filled on the protective side of their stop: the
      whole run loosens no open stop, and every finished record stays as it was booked. */
  lemma StopsNeverLoosen(cfg: Config, w: World, ops: seq<Op>, start: real)
    requires Inv(w, start) && Protected(cfg, w) && AllowedRun(cfg, w, ops) && ProtectiveRun(cfg, w, ops)
    ensures Evolves(w.table, Run(cfg, w, ops).table) && Protected(cfg, Run(cfg, w, ops))
  {
    hide Inv, Protected, Run, Evolves;
    ProtectiveNeverLoosens(cfg, w, ops, start);
    TableRatchetIff(cfg, w, ops, start);
    ThroughoutEvolves(cfg, w, ops);
  }
}
