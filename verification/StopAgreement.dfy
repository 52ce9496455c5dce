/** The stop of a record and that of its position: over any run, with faults and interruptions, they
    agree throughout exactly when every moved stop reaches the table. */
module StopAgreement {
  import opened Prelude
  import opened PaperBroker
  import opened Ledger
  import opened LedgerInvariants
  import opened LedgerStops

  ghost predicate StopsSame(w: World) {
    forall i, p :: 0 <= i < |w.table| && p in w.book.positions && w.table[i].ticket == p.ticket ==> w.table[i].sl == p.sl
  }

  /** The operation moves a stop at the broker, and writing it to the table fails. */
  predicate LosesStop(cfg: Config, w: World, op: Op) {
    Moves(cfg, w, op).Some? && op.fault == StopWriteFails
  }

  // ---------- one operation ----------

  lemma FewerStopsSame(w: World, w': World)
    requires StopsSame(w) && |w'.table| == |w.table|
    requires forall i :: 0 <= i < |w.table| ==> w'.table[i].ticket == w.table[i].ticket && w'.table[i].sl == w.table[i].sl
    requires forall p :: p in w'.book.positions ==> p in w.book.positions
    ensures StopsSame(w')
  {
  }

  lemma SettleSame(w: World, c: ClosedTrade)
    requires StopsSame(w)
    ensures StopsSame(Settle(w, c))
  {
    FewerStopsSame(w, Settle(w, c));
  }

  lemma CloseSame(w: World, p: nat, price: real, reason: CloseReason, fault: Fault)
    requires StopsSame(w) && p < |w.book.positions|
    ensures StopsSame(CloseAndSettle(w, p, price, reason, fault))
  {
    hide StopsSame, TradeOf, Settle;
    var w1 := AfterCloseAt(w, p, price, reason);
    forall q | q in w1.book.positions
      ensures q in w.book.positions
    {
      RemoveAtMember(w.book.positions, p, q);
    }
    FewerStopsSame(w, w1);
    SettleSame(w1, TradeOf(w.book.positions[p], price, reason, w.book.contractSize));
  }

  lemma ExitsSame(w: World)
    requires StopsSame(w)
    ensures StopsSame(ExitsAt(w))
  {
    hide StopsSame;
    forall q | q in ExitsAt(w).book.positions
      ensures q in w.book.positions
    {
      RemainingMember(w.book.positions, w.prices, q);
    }
    FewerStopsSame(w, ExitsAt(w));
  }

  lemma ResolveSame(w: World, i: nat)
    requires StopsSame(w)
    ensures StopsSame(ResolveRecord(w, i))
  {
    hide StopsSame, Settle, FirstClosed;
    if Resolves(w, i) {
      var f := FirstClosed(w.book.closed, w.table[i].ticket);
      if f.Some? {
        SettleSame(w, f.value);
      } else {
        FewerStopsSame(w, ResolveRecord(w, i));
      }
    } else {
      FewerStopsSame(w, w);
    }
  }

  lemma ApproveSame(cfg: Config, w: World, op: Op, start: real)
    requires Inv(w, start) && StopsSame(w) && op.ApproveOp? && Allowed(w, op)
    ensures StopsSame(Apply(cfg, w, op))
  {
    hide OpenCount, LastPrice, Distinct, Balanced, Agree, Booked, PassOk;
    var w' := Apply(cfg, w, op);
    forall i, p | 0 <= i < |w'.table| && p in w'.book.positions && w'.table[i].ticket == p.ticket
      ensures w'.table[i].sl == p.sl
    {
      if i < |w.table| {
        assert w'.table[i] == w.table[i];
        assert p in w.book.positions;
      } else if p in w.book.positions {
        LiveMember(w.book.positions, p);
      }
    }
  }

  /** Moving a stop to a new level keeps the two in agreement exactly when the table takes it. */
  lemma MoveStopSameIff(w: World, i: nat, p: nat, sl: real, breakeven: bool, fault: Fault, start: real)
    requires Inv(w, start) && StopsSame(w) && i < |w.table| && p < |w.book.positions|
    requires w.table[i].ticket == w.book.positions[p].ticket && w.table[i].sl != Some(sl)
    ensures StopsSame(MoveStop(w, i, p, sl, breakeven, fault)) <==> fault != StopWriteFails
  {
    var w' := MoveStop(w, i, p, sl, breakeven, fault);
    var pos, moved := w.book.positions[p], w'.book.positions[p];
    assert pos in w.book.positions && moved in w'.book.positions;
    OneOfEach(w, i, p, start);
    hide Inv;
    if fault == StopWriteFails {
      assert w'.table[i].ticket == moved.ticket && w'.table[i].sl != moved.sl;
    } else {
      forall j, q | 0 <= j < |w'.table| && q in w'.book.positions && w'.table[j].ticket == q.ticket
        ensures w'.table[j].sl == q.sl
      {
        var k :| 0 <= k < |w'.book.positions| && w'.book.positions[k] == q;
        assert w.book.positions[k] in w.book.positions;
        assert w.book.positions[k].ticket == w.table[j].ticket;
        assert k == p <==> j == i;
      }
    }
  }

  /** No other row and no other position carries the ticket. */
  lemma OneOfEach(w: World, i: nat, p: nat, start: real)
    requires Inv(w, start) && i < |w.table| && p < |w.book.positions| && w.table[i].ticket == w.book.positions[p].ticket
    ensures forall j :: 0 <= j < |w.table| && w.table[j].ticket == w.table[i].ticket ==> j == i
    ensures forall k :: 0 <= k < |w.book.positions| && w.book.positions[k].ticket == w.table[i].ticket ==> k == p
  {
    var t := w.table[i].ticket;
    assert w.book.positions[p] in w.book.positions;
    LiveMember(w.book.positions, w.book.positions[p]);
    assert Issued(w.book, t) <= 1 && Issued(w.book, "") == 0;
    forall k | 0 <= k < |w.book.positions| && w.book.positions[k].ticket == t
      ensures k == p
    {
      PositionOnce(w.book.positions, k, p);
    }
  }

  /** A record with risk has a stop away from its entry. */
  lemma RiskyStop(r: TradeRecord, sl: real)
    requires Risk(r) > 0.0 && sl == r.entry
    ensures r.sl != Some(sl)
  {
  }

  lemma TightenedStop(d: Direction, sl: Option<real>, candidate: real)
    requires Tightens(d, sl, candidate)
    ensures sl != Some(candidate)
  {
  }

  lemma IctSameIff(cfg: Config, w: World, i: nat, bosClose: Option<real>, fault: Fault, start: real)
    requires Inv(w, start) && StopsSame(w)
    ensures StopsSame(ManageIctRow(cfg, w, i, bosClose, fault)) <==> !LosesStop(cfg, w, IctOp(i, bosClose, fault))
  {
    if fault != Raises && i < |w.table| && ManagedIct(cfg, w, i) {
      var r, m, p := w.table[i], ManagementOf(cfg, w.table[i]), Find(w.book.positions, w.table[i].ticket).value;
      LiveRow(w, i, start);
      Round2OfWholeCents(r.entry);
      RiskyStop(r, r.entry);
      hide Inv, StopsSame, Risk, BreakevenDue, CloseAndSettle, MoveStop, Round2;
      MoveStopSameIff(w, i, p, r.entry, true, fault, start);
      SamePositionCount(w, i, p, r.entry, true, fault);
      var w1 := MoveStop(w, i, p, r.entry, true, fault);
      if bosClose.Some? {
        CloseSame(w, p, bosClose.value, OppositeBos, fault);
        if fault != StopWriteFails {
          CloseSame(w1, p, bosClose.value, OppositeBos, fault);
        }
      }
    }
  }

  lemma LineSameIff(cfg: Config, w: World, i: nat, view: Option<LineView>, fault: Fault, start: real)
    requires Inv(w, start) && StopsSame(w)
    ensures StopsSame(ManageLineRow(cfg, w, i, view, fault)) <==> !LosesStop(cfg, w, LineOp(i, view, fault))
  {
    hide Inv, StopsSame, TrailCandidate, CloseAndSettle, MoveStop, Tightens, BeyondLine;
    if fault != Raises && i < |w.table| && ManagedLine(cfg, w, i, view) {
      var r, m, p := w.table[i], ManagementOf(cfg, w.table[i]), Find(w.book.positions, w.table[i].ticket).value;
      var v := view.value;
      var candidate := TrailCandidate(r.direction, v.safety.value, v.atr, m.slBufferAtr);
      if BeyondLine(r.direction, v.close, v.safety.value) {
        CloseSame(w, p, v.close, SafetyLine, fault);
      } else if Tightens(r.direction, r.sl, candidate) {
        TightenedStop(r.direction, r.sl, candidate);
        MoveStopSameIff(w, i, p, candidate, false, fault, start);
      }
    }
  }

  lemma ApplySameIff(cfg: Config, w: World, op: Op, start: real)
    requires Inv(w, start) && StopsSame(w) && Allowed(w, op)
    ensures StopsSame(Apply(cfg, w, op)) <==> !LosesStop(cfg, w, op)
  {
    hide Inv, StopsSame;
    match op
    case ApproveOp(_, _, _, _) => ApproveSame(cfg, w, op, start);
    case ResolveOp(i, _) => ResolveSame(w, i);
    case ExitsOp => ExitsSame(w);
    case SettleOp(k, _) =>
      if k < |w.book.closed| {
        SettleSame(w, w.book.closed[k]);
      }
    case IctOp(i, bosClose, fault) => IctSameIff(cfg, w, i, bosClose, fault, start);
    case LineOp(i, view, fault) => LineSameIff(cfg, w, i, view, fault, start);
    case _ => FewerStopsSame(w, Apply(cfg, w, op));
  }

  // ---------- whole runs ----------

  ghost predicate AgreeThroughout(cfg: Config, w: World, ops: seq<Op>) {
    StopsSame(Run(cfg, w, ops)) && (ops == [] || AgreeThroughout(cfg, w, ops[..|ops| - 1]))
  }

  predicate NoStopLost(cfg: Config, w: World, ops: seq<Op>) {
    ops == [] || (NoStopLost(cfg, w, ops[..|ops| - 1]) && !LosesStop(cfg, Run(cfg, w, ops[..|ops| - 1]), ops[|ops| - 1]))
  }

  /** In every state of a run every record holds the stop of its position exactly when no write of a
      moved stop was lost. */
  lemma {:induction false} StopsAgree(cfg: Config, w: World, ops: seq<Op>, start: real)
    requires Inv(w, start) && StopsSame(w) && AllowedRun(cfg, w, ops)
    ensures AgreeThroughout(cfg, w, ops) <==> NoStopLost(cfg, w, ops)
  {
    hide Inv, StopsSame, Apply, LosesStop;
    if ops != [] {
      var before, op := ops[..|ops| - 1], ops[|ops| - 1];
      StopsAgree(cfg, w, before, start);
      RunKeeps(cfg, w, before, start);
      if AgreeThroughout(cfg, w, before) {
        AgreesLast(cfg, w, before);
        ApplySameIff(cfg, Run(cfg, w, before), op, start);
      }
    }
  }

  lemma AgreesLast(cfg: Config, w: World, ops: seq<Op>)
    requires AgreeThroughout(cfg, w, ops)
    ensures StopsSame(Run(cfg, w, ops))
  {
  }
}
