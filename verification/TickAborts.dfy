/** A record too young for the structure search ends every tick that manages it
    (services/execution/service.py, `_opposite_bos_close`). */
module TickAborts {
  import opened Prelude
  import opened PaperBroker
  import opened Ledger
  import opened LedgerInvariants
  import opened Ticks
  import MarketStructure

  /** The four lengths on which the search raises. */
  predicate TooYoung(cs: seq<Candle>) {
    10 <= |cs| < MarketStructure.ATR_PERIOD
  }

  lemma SearchRaisesIff(cs: seq<Candle>, d: Direction)
    ensures BreakClose(cs, d).Raised? <==> TooYoung(cs)
  {
    hide MarketStructure.BosOf, MarketStructure.FirstOf;
  }

  /** Row `i` is as it was, and so is whether it has a position. */
  predicate Untouched(w: World, w': World, i: nat)
    requires i < |w.table|
  {
    i < |w'.table| && w'.table[i] == w.table[i] && Live(w'.book.positions, w.table[i].ticket) > 0
  }

  lemma UntouchedSearches(cfg: Config, w: World, w': World, i: nat)
    requires Searches(cfg, w, i) && Untouched(w, w', i)
    ensures Searches(cfg, w', i)
  {
    hide Risk;
  }

  // ---------- one step ----------

  lemma SettleLeaves(w: World, c: ClosedTrade, i: nat)
    requires i < |w.table| && w.table[i].ticket != c.ticket && Live(w.book.positions, w.table[i].ticket) > 0
    ensures Untouched(w, Settle(w, c), i)
  {
    hide SettleRow, Live;
  }

  lemma CloseLeaves(w: World, p: nat, price: real, reason: CloseReason, fault: Fault, i: nat)
    requires p < |w.book.positions| && i < |w.table| && w.table[i].ticket != w.book.positions[p].ticket
    requires Live(w.book.positions, w.table[i].ticket) > 0
    ensures Untouched(w, CloseAndSettle(w, p, price, reason, fault), i)
  {
    LiveWithout(w.book.positions, p, w.table[i].ticket);
    var trade := TradeOf(w.book.positions[p], price, reason, w.book.contractSize);
    assert trade.ticket == w.book.positions[p].ticket;
    hide TradeOf, Live, Settle;
    SettleLeaves(AfterCloseAt(w, p, price, reason), trade, i);
  }

  lemma MoveLeaves(w: World, k: nat, p: nat, sl: real, breakeven: bool, fault: Fault, i: nat)
    requires k < |w.table| && p < |w.book.positions| && i < |w.table| && i != k && Live(w.book.positions, w.table[i].ticket) > 0
    ensures Untouched(w, MoveStop(w, k, p, sl, breakeven, fault), i)
    ensures MoveStop(w, k, p, sl, breakeven, fault).book.positions[p].ticket == w.book.positions[p].ticket
  {
    StopKeeps(w.book, p, sl, w.table[i].ticket);
    hide Live;
  }

  /** Managing one row leaves every other row that has a position alone. */
  lemma RowLeaves(cfg: Config, w: World, k: nat, bosClose: Option<real>, fault: Fault, i: nat, start: real)
    requires Inv(w, start) && i < |w.table| && i != k && Live(w.book.positions, w.table[i].ticket) > 0
    ensures Untouched(w, ManageIctRow(cfg, w, k, bosClose, fault), i)
  {
    if k < |w.table| && ManagedIct(cfg, w, k) {
      var r, p := w.table[k], Find(w.book.positions, w.table[k].ticket).value;
      OtherTicket(w, i, k, start);
      hide Inv, Live, Risk, BreakevenDue, CloseAndSettle, MoveStop, Round2, Find;
      MoveLeaves(w, k, p, Round2(r.entry), true, fault, i);
      SamePositionCount(w, k, p, Round2(r.entry), true, fault);
      var w1 := MoveStop(w, k, p, Round2(r.entry), true, fault);
      if bosClose.Some? {
        CloseLeaves(w, p, bosClose.value, OppositeBos, fault, i);
        CloseLeaves(w1, p, bosClose.value, OppositeBos, fault, i);
      }
    }
  }

  lemma OtherTicket(w: World, i: nat, k: nat, start: real)
    requires Inv(w, start) && i < |w.table| && k < |w.table| && i != k && Live(w.book.positions, w.table[i].ticket) > 0
    ensures w.table[i].ticket != w.table[k].ticket
  {
    assert Issued(w.book, "") == 0;
  }

  lemma HandledLeaves(cfg: Config, w: World, op: Op, i: nat)
    requires Interruption(op) && i < |w.table| && Live(w.book.positions, w.table[i].ticket) > 0
    ensures Untouched(w, Apply(cfg, w, op), i)
  {
    hide OpenCount, LastPrice, Round2;
    match op
    case QuoteOp(_, _) =>
    case ApproveOp(o, t1, t2, _) =>
      var px := LastPrice(w.prices, o.symbol);
      if px.Some? {
        var p1, p2 := PositionFor(o, t1, px.value), PositionFor(o, t2, px.value);
        LiveSnoc(w.book.positions, p1, w.table[i].ticket);
        LiveSnoc(w.book.positions + [p1], p2, w.table[i].ticket);
      }
  }

  lemma {:induction false} HandledSearch(cfg: Config, w: World, handled: seq<Op>, i: nat)
    requires Searches(cfg, w, i) && forall op :: op in handled ==> Interruption(op)
    ensures Searches(cfg, Run(cfg, w, handled), i)
  {
    hide Apply, Untouched;
    if handled != [] {
      var before := Run(cfg, w, handled[..|handled| - 1]);
      HandledSearch(cfg, w, handled[..|handled| - 1], i);
      HandledLeaves(cfg, before, handled[|handled| - 1], i);
      UntouchedSearches(cfg, before, Apply(cfg, before, handled[|handled| - 1]), i);
    }
  }

  // ---------- the loop ----------

  lemma AllowedPrefix(cfg: Config, w: World, view: View, slots: seq<Slot>, n: nat)
    requires AllowedRun(cfg, w, IctOps(cfg, w, view, slots, n + 1))
    ensures AllowedRun(cfg, w, IctOps(cfg, w, view, slots, n))
    ensures !IctAborts(cfg, w, view, slots, n) ==> AllowedRun(cfg, w, IctOps(cfg, w, view, slots, n) + [IctOpAt(cfg, w, view, slots, n)])
  {
    if IctAborts(cfg, w, view, slots, n) {
      IctStaysAborted(cfg, w, view, slots, n, n + 1);
    } else {
      hide AllowedRun, IctOpAt, Run, IctOps, IctAborts;
      var front, op := IctOps(cfg, w, view, slots, n), IctOpAt(cfg, w, view, slots, n);
      IctIterationIs(cfg, w, view, slots, n);
      AllowedConcat(cfg, w, front, [op]);
      AllowedConcat(cfg, w, front + [op], SlotAt(slots, n).handled);
    }
  }

  /** What a row needs to come to its search survives the rows before it and whatever is handled
      between them. */
  lemma {:induction false} StillSearches(cfg: Config, w: World, view: View, slots: seq<Slot>, n: nat, i: nat, start: real)
    requires Inv(w, start) && Interruptions(slots) && AllowedRun(cfg, w, IctOps(cfg, w, view, slots, n))
    requires n <= i && Searches(cfg, w, i) && !IctAborts(cfg, w, view, slots, n)
    ensures Searches(cfg, Run(cfg, w, IctOps(cfg, w, view, slots, n)), i)
  {
    hide Searches, Inv, Apply, Run, AllowedRun, Interruptions, IctOpAt, IctOps, IctAborts, Untouched;
    NoIctSteps(cfg, w, view, slots);
    if n > 0 {
      var front, op, handled := IctOps(cfg, w, view, slots, n - 1), IctOpAt(cfg, w, view, slots, n - 1), SlotAt(slots, n - 1).handled;
      AllowedPrefix(cfg, w, view, slots, n - 1);
      BeforeAbort(cfg, w, view, slots, n - 1);
      IctIterationIs(cfg, w, view, slots, n - 1);
      StillSearches(cfg, w, view, slots, n - 1, i, start);
      RunKeeps(cfg, w, front, start);
      var now := Run(cfg, w, front);
      StepSearches(cfg, now, op, i, start);
      RunIteration(cfg, w, front, op, handled);
      HandledAre(slots, n - 1);
      HandledSearch(cfg, Apply(cfg, now, op), handled, i);
    }
  }

  lemma BeforeAbort(cfg: Config, w: World, view: View, slots: seq<Slot>, n: nat)
    requires !IctAborts(cfg, w, view, slots, n + 1)
    ensures !IctAborts(cfg, w, view, slots, n)
  {
  }

  lemma StepSearches(cfg: Config, w: World, op: Op, i: nat, start: real)
    requires Inv(w, start) && Searches(cfg, w, i) && op.IctOp? && op.i != i
    ensures Searches(cfg, Apply(cfg, w, op), i)
  {
    hide Inv, ManageIctRow, Risk, Untouched;
    RowLeaves(cfg, w, op.i, op.bosClose, op.fault, i, start);
    UntouchedSearches(cfg, w, ManageIctRow(cfg, w, op.i, op.bosClose, op.fault), i);
  }

  /** No step after row `i`. */
  ghost predicate EndsBy(ops: seq<Op>, i: nat) {
    forall op :: op in ops ==> Interruption(op) || (op.IctOp? && op.i <= i)
  }

  lemma {:induction false} OpsBelow(cfg: Config, w: World, view: View, slots: seq<Slot>, n: nat)
    requires Interruptions(slots)
    ensures EndsBy(IctOps(cfg, w, view, slots, n + 1), n)
  {
    hide IctOpAt, Run, Interruptions;
    HandledAre(slots, n);
    if n > 0 {
      OpsBelow(cfg, w, view, slots, n - 1);
    }
  }

  lemma RaisesAt(cfg: Config, w: World, view: View, slots: seq<Slot>, i: nat)
    requires Searches(cfg, Run(cfg, w, IctOps(cfg, w, view, slots, i)), i)
    requires BreakClose(CandlesAt(view.since, i), Long).Raised? && BreakClose(CandlesAt(view.since, i), Short).Raised?
    ensures IctOpAt(cfg, w, view, slots, i).fault != NoFault
  {
    var now, cs, fault := Run(cfg, w, IctOps(cfg, w, view, slots, i)), CandlesAt(view.since, i), SlotAt(slots, i).fault;
    assert now.table[i].direction == Long || now.table[i].direction == Short;
    assert BreakClose(cs, now.table[i].direction).Raised?;
    assert IctOpAt(cfg, w, view, slots, i) == IctStepAt(cfg, now, cs, fault, i);
    hide Run, IctOps, ManagedIct, BreakClose, IctOpAt;
  }

  /** However the rows before it go and whatever is handled between them, a record that is too young
      for its structure search ends the loop, at the latest by raising itself. */
  lemma YoungRecordEndsLoop(cfg: Config, w: World, view: View, slots: seq<Slot>, i: nat, n: nat, start: real)
    requires Inv(w, start) && Interruptions(slots) && AllowedRun(cfg, w, IctOps(cfg, w, view, slots, n))
    requires i < n && Searches(cfg, w, i) && TooYoung(CandlesAt(view.since, i))
    ensures IctAborts(cfg, w, view, slots, n) && EndsBy(IctOps(cfg, w, view, slots, n), i)
  {
    hide Searches, Inv, AllowedRun, Interruptions, Run, IctOps, IctAborts, EndsBy, BreakClose, TooYoung;
    OpsBelow(cfg, w, view, slots, i);
    AllowedBelow(cfg, w, view, slots, i, n);
    if !IctAborts(cfg, w, view, slots, i) {
      StillSearches(cfg, w, view, slots, i, i, start);
      IctIterationIs(cfg, w, view, slots, i);
      SearchRaisesIff(CandlesAt(view.since, i), Long);
      SearchRaisesIff(CandlesAt(view.since, i), Short);
      RaisesAt(cfg, w, view, slots, i);
    } else {
      IctStaysAborted(cfg, w, view, slots, i, i + 1);
    }
    IctStaysAborted(cfg, w, view, slots, i + 1, n);
  }

  lemma {:induction false} AllowedBelow(cfg: Config, w: World, view: View, slots: seq<Slot>, m: nat, n: nat)
    requires m <= n && AllowedRun(cfg, w, IctOps(cfg, w, view, slots, n))
    ensures AllowedRun(cfg, w, IctOps(cfg, w, view, slots, m))
  {
    hide AllowedRun, IctOps;
    if m < n {
      AllowedPrefix(cfg, w, view, slots, n - 1);
      AllowedBelow(cfg, w, view, slots, m, n - 1);
    }
  }

  // ---------- the tick ----------

  /** The state in which a tick comes to the breakeven management, if it does. */
  function AtManagement(cfg: Config, w: World, s: Schedule): Option<World> {
    if Aborts(s.resolve, |w.table|) then None
    else
      var w1 := Run(cfg, w, PassOps(false, |w.table|, s.resolve));
      if OpenTickets(w1.table) == {} || ExitsRaise(w1, s.settle) then None
      else Some(Run(cfg, w1, ExitOps(w1, s.settle)))
  }

  /** Neither a later record nor a safety line is managed, and the account is not published. */
  ghost predicate SkipsRest(ops: seq<Op>, i: nat) {
    forall op :: op in ops ==> !op.LineOp? && !op.EquityOp? && (op.IctOp? ==> op.i <= i)
  }

  lemma YoungRecordEndsTick(cfg: Config, w: World, view: View, s: Schedule, i: nat, start: real)
    requires Inv(w, start) && ValidSchedule(s) && AllowedRun(cfg, w, TickOps(cfg, w, view, s))
    requires var now := AtManagement(cfg, w, s); now.Some? && Searches(cfg, now.value, i)
    requires TooYoung(CandlesAt(view.since, i))
    ensures SkipsRest(TickOps(cfg, w, view, s), i)
  {
    var pass := PassOps(false, |w.table|, s.resolve);
    var w1 := Run(cfg, w, pass);
    var exits, now := ExitOps(w1, s.settle), AtManagement(cfg, w, s).value;
    var n := |now.table|;
    var ict := IctOps(cfg, now, view, s.ict, n);
    PassHasNeither(|w.table|, s.resolve, i);
    ExitsHaveNeither(w1, s.settle, i);
    hide Inv, AllowedRun, Interruptions, Run, IctOps, IctAborts, PassOps, ExitOps, Aborts, ExitsRaise, SkipsRest, TooYoung;
    AllowedParts(cfg, w, view, s);
    RunKeeps(cfg, w, pass, start);
    RunKeeps(cfg, w1, exits, start);
    YoungRecordEndsLoop(cfg, now, view, s.ict, i, n, start);
    assert TickOps(cfg, w, view, s) == pass + (exits + ict);
    SkipsAll(pass, exits, ict, i);
  }

  /** Up to the management, the parts of an allowed tick are allowed. */
  lemma AllowedParts(cfg: Config, w: World, view: View, s: Schedule)
    requires AllowedRun(cfg, w, TickOps(cfg, w, view, s)) && AtManagement(cfg, w, s).Some?
    ensures var pass := PassOps(false, |w.table|, s.resolve);
      var w1 := Run(cfg, w, pass);
      var now := AtManagement(cfg, w, s).value;
      && AllowedRun(cfg, w, pass) && AllowedRun(cfg, w1, ExitOps(w1, s.settle))
      && AllowedRun(cfg, now, IctOps(cfg, now, view, s.ict, |now.table|))
  {
    hide AllowedRun, Run, IctOps, IctAborts, PassOps, ExitOps, Aborts, ExitsRaise, PositionsRaise, LineOps;
    var pass := PassOps(false, |w.table|, s.resolve);
    var w1 := Run(cfg, w, pass);
    var exits, now := ExitOps(w1, s.settle), AtManagement(cfg, w, s).value;
    var ict := IctOps(cfg, now, view, s.ict, |now.table|);
    var lines := if IctAborts(cfg, now, view, s.ict, |now.table|) then [] else LineOps(Run(cfg, now, ict), view, s.lines);
    var last := if PositionsRaise(cfg, w1, view, s) then [] else [EquityOp];
    assert PositionOps(cfg, w1, view, s) == exits + ict + lines;
    assert TickOps(cfg, w, view, s) == pass + (exits + (ict + (lines + last)));
    AllowedConcat(cfg, w, pass, exits + (ict + (lines + last)));
    AllowedConcat(cfg, w1, exits, ict + (lines + last));
    AllowedConcat(cfg, now, ict, lines + last);
  }

  lemma SkipsAll(pass: seq<Op>, exits: seq<Op>, ict: seq<Op>, i: nat)
    requires SkipsRest(pass, i) && SkipsRest(exits, i) && EndsBy(ict, i)
    ensures SkipsRest(pass + (exits + ict), i)
  {
  }

  /** Steps that are neither of the later stages. */
  ghost predicate Early(steps: seq<Op>) {
    forall op :: op in steps ==> !op.LineOp? && !op.EquityOp? && !op.IctOp?
  }

  lemma {:induction false} IterationsEarly(steps: seq<Op>, slots: seq<Slot>, n: nat)
    requires n <= |steps| && Early(steps) && Interruptions(slots)
    ensures Early(Iterations(steps, slots, n))
  {
    hide Interruptions;
    if n > 0 {
      HandledAre(slots, n - 1);
      IterationsEarly(steps, slots, n - 1);
    }
  }

  lemma PassHasNeither(n: nat, slots: seq<Slot>, i: nat)
    requires Interruptions(slots)
    ensures SkipsRest(PassOps(false, n, slots), i)
  {
    hide Interruptions, Iterations;
    IterationsEarly(ResolveSteps(n, slots), slots, n);
  }

  lemma ExitsHaveNeither(w: World, slots: seq<Slot>, i: nat)
    requires Interruptions(slots)
    ensures SkipsRest(ExitOps(w, slots), i)
  {
    hide Interruptions, Iterations, Settled;
    var n := |Settled(w.book.positions, w.prices, w.book.contractSize)|;
    IterationsEarly(SettleSteps(|w.book.closed|, n, slots), slots, n);
  }
}
