/** A monitor tick as a run of its steps: after every step that awaits, quotes and approved signals
    may be handled, and a step that raises ends the tick (services/execution/service.py, `tick`). */
module Ticks {
  import opened Prelude
  import opened PaperBroker
  import opened Ledger
  import MarketStructure

  /** How one iteration of a loop of the tick goes: whether it raises, and what is handled during its
      await. */
  datatype Slot = Slot(fault: Fault, handled: seq<Op>)

  datatype Schedule = Schedule(resolve: seq<Slot>, settle: seq<Slot>, ict: seq<Slot>, lines: seq<Slot>)

  function SlotAt(slots: seq<Slot>, i: nat): Slot {
    if i < |slots| then slots[i] else Slot(NoFault, [])
  }

  /** Only quotes and approved signals are handled while a tick waits. */
  predicate Interruption(op: Op) {
    op.QuoteOp? || op.ApproveOp?
  }

  ghost predicate Interruptions(slots: seq<Slot>) {
    forall i, op :: 0 <= i < |slots| && op in slots[i].handled ==> Interruption(op)
  }

  /** What is handled during an iteration's await are interruptions. */
  lemma HandledAre(slots: seq<Slot>, i: nat)
    requires Interruptions(slots)
    ensures forall op :: op in SlotAt(slots, i).handled ==> Interruption(op)
  {
  }

  ghost predicate ValidSchedule(s: Schedule) {
    Interruptions(s.resolve) && Interruptions(s.settle) && Interruptions(s.ict) && Interruptions(s.lines)
  }

  /** Whether one of the first `n` iterations raises. */
  predicate Aborts(slots: seq<Slot>, n: nat) {
    n > 0 && (Aborts(slots, n - 1) || SlotAt(slots, n - 1).fault != NoFault)
  }

  /** The first `n` iterations of a loop with the given steps, up to one that raises. */
  function Iterations(steps: seq<Op>, slots: seq<Slot>, n: nat): seq<Op>
    requires n <= |steps|
  {
    if n == 0 then []
    else
      var front, slot := Iterations(steps, slots, n - 1), SlotAt(slots, n - 1);
      if Aborts(slots, n - 1) then front
      else front + [steps[n - 1]] + (if slot.fault == NoFault then slot.handled else [])
  }

  function ResolveSteps(n: nat, slots: seq<Slot>): (steps: seq<Op>)
    ensures |steps| == n && forall i :: 0 <= i < n ==> steps[i] == ResolveOp(i, SlotAt(slots, i).fault)
  {
    seq(n, i requires 0 <= i < n => ResolveOp(i, SlotAt(slots, i).fault))
  }

  function SettleSteps(first: nat, n: nat, slots: seq<Slot>): (steps: seq<Op>)
    ensures |steps| == n && forall i :: 0 <= i < n ==> steps[i] == SettleOp(first + i, SlotAt(slots, i).fault)
  {
    seq(n, i requires 0 <= i < n => SettleOp(first + i, SlotAt(slots, i).fault))
  }

  function LineSteps(n: nat, view: View, slots: seq<Slot>): (steps: seq<Op>)
    ensures |steps| == n && forall i :: 0 <= i < n ==> steps[i] == LineOp(i, At(view.lines, i), SlotAt(slots, i).fault)
  {
    seq(n, i requires 0 <= i < n => LineOp(i, At(view.lines, i), SlotAt(slots, i).fault))
  }

  /** A reconciliation pass over the first `n` records. */
  function PassOps(gate: bool, n: nat, slots: seq<Slot>): seq<Op> {
    [BeginOp(gate)] + Iterations(ResolveSteps(n, slots), slots, n) + [if Aborts(slots, n) then AbortOp else EndOp]
  }

  /** The exits evaluated on `w` and the booking of what they closed. */
  function ExitOps(w: World, slots: seq<Slot>): seq<Op> {
    var n := |Settled(w.book.positions, w.prices, w.book.contractSize)|;
    [ExitsOp] + Iterations(SettleSteps(|w.book.closed|, n, slots), slots, n)
  }

  predicate ExitsRaise(w: World, slots: seq<Slot>) {
    Aborts(slots, |Settled(w.book.positions, w.prices, w.book.contractSize)|)
  }

  // ---------- the search for a structure break ----------

  const FLOOR_MULT: real := 0.25

  function CandlesAt(since: seq<seq<Candle>>, i: nat): seq<Candle> {
    if i < |since| then since[i] else []
  }

  /** `_opposite_bos_close`: the close of the candle that broke structure against the trade. */
  function BreakClose(cs: seq<Candle>, d: Direction): Result<Option<real>> {
    match MarketStructure.OppositeBos(cs, d, FLOOR_MULT)
    case Raised(e) => Raised(e)
    case Success(None) => Success(None)
    case Success(Some(idx)) =>
      MarketStructure.OppositeBosIsFirst(cs, d, FLOOR_MULT);
      Success(Some(cs[idx].close))
  }

  /** The record is managed up to its structure exit. */
  predicate Searches(cfg: Config, w: World, i: nat) {
    i < |w.table| && ManagedIct(cfg, w, i) && ManagementOf(cfg, w.table[i]).earlyExit
  }

  /** The step of row `i`: its search may raise, if nothing raises before. */
  function IctStepAt(cfg: Config, w: World, cs: seq<Candle>, fault: Fault, i: nat): Op {
    var search := if Searches(cfg, w, i) then BreakClose(cs, w.table[i].direction) else Success(None);
    match search
    case Success(close) => IctOp(i, close, fault)
    case Raised(_) => IctOp(i, None, if fault == Raises || fault == StopWriteFails then fault else SearchRaises)
  }

  /** The first `n` rows under breakeven management from `w`, up to one that raises. */
  function IctOps(cfg: Config, w: World, view: View, slots: seq<Slot>, n: nat): seq<Op>
    decreases n, 0
  {
    if n == 0 then []
    else
      var front := IctOps(cfg, w, view, slots, n - 1);
      if IctAborts(cfg, w, view, slots, n - 1) then front
      else
        var op := IctOpAt(cfg, w, view, slots, n - 1);
        front + [op] + (if op.fault == NoFault then SlotAt(slots, n - 1).handled else [])
  }

  /** The step of row `i` in the state that the rows before it have left. */
  function IctOpAt(cfg: Config, w: World, view: View, slots: seq<Slot>, i: nat): (op: Op)
    ensures op.IctOp? && op.i == i
    decreases i, 1
  {
    IctStepAt(cfg, Run(cfg, w, IctOps(cfg, w, view, slots, i)), CandlesAt(view.since, i), SlotAt(slots, i).fault, i)
  }

  predicate IctAborts(cfg: Config, w: World, view: View, slots: seq<Slot>, n: nat)
    decreases n, 0
  {
    n > 0 && (IctAborts(cfg, w, view, slots, n - 1) || IctOpAt(cfg, w, view, slots, n - 1).fault != NoFault)
  }

  function LineOps(w: World, view: View, slots: seq<Slot>): seq<Op> {
    Iterations(LineSteps(|w.table|, view, slots), slots, |w.table|)
  }

  /** `_reconcile_positions` from `w`: nothing happens without an open ticketed record. */
  function PositionOps(cfg: Config, w: World, view: View, s: Schedule): seq<Op> {
    if OpenTickets(w.table) == {} then []
    else
      var exits := ExitOps(w, s.settle);
      var w1 := Run(cfg, w, exits);
      if ExitsRaise(w, s.settle) then exits
      else
        var ict := IctOps(cfg, w1, view, s.ict, |w1.table|);
        var w2 := Run(cfg, w1, ict);
        if IctAborts(cfg, w1, view, s.ict, |w1.table|) then exits + ict else exits + ict + LineOps(w2, view, s.lines)
  }

  predicate PositionsRaise(cfg: Config, w: World, view: View, s: Schedule) {
    OpenTickets(w.table) != {}
    && var w1 := Run(cfg, w, ExitOps(w, s.settle));
       var w2 := Run(cfg, w1, IctOps(cfg, w1, view, s.ict, |w1.table|));
       ExitsRaise(w, s.settle) || IctAborts(cfg, w1, view, s.ict, |w1.table|) || Aborts(s.lines, |w2.table|)
  }

  /** A whole tick from `w`; an exception anywhere is caught and ends it. */
  function TickOps(cfg: Config, w: World, view: View, s: Schedule): seq<Op> {
    var pass := PassOps(false, |w.table|, s.resolve);
    if Aborts(s.resolve, |w.table|) then pass
    else
      var w1 := Run(cfg, w, pass);
      pass + PositionOps(cfg, w1, view, s) + (if PositionsRaise(cfg, w1, view, s) then [] else [EquityOp])
  }

  lemma {:induction false} RunConcat(cfg: Config, w: World, a: seq<Op>, b: seq<Op>)
    ensures Run(cfg, w, a + b) == Run(cfg, Run(cfg, w, a), b)
  {
    hide Apply;
    if b == [] {
      assert a + b == a;
    } else {
      RunConcat(cfg, w, a, b[..|b| - 1]);
      assert (a + b)[..|a + b| - 1] == a + b[..|b| - 1];
    }
  }

  lemma RunStep(cfg: Config, w: World, done: seq<Op>, op: Op)
    ensures Run(cfg, w, done + [op]) == Apply(cfg, Run(cfg, w, done), op)
  {
    hide Apply;
    assert (done + [op])[..|done|] == done;
  }

  lemma NoIterations(cfg: Config, w: World, steps: seq<Op>, slots: seq<Slot>)
    ensures Iterations(steps, slots, 0) == [] && !Aborts(slots, 0) && Run(cfg, w, []) == w
  {
  }

  lemma IterationIs(steps: seq<Op>, slots: seq<Slot>, i: nat)
    requires i < |steps| && !Aborts(slots, i)
    ensures var slot, upTo := SlotAt(slots, i), Iterations(steps, slots, i) + [steps[i]];
      && Iterations(steps, slots, i + 1) == (if slot.fault == NoFault then upTo + slot.handled else upTo)
      && (Aborts(slots, i + 1) <==> slot.fault != NoFault)
  {
  }

  lemma IctIterationIs(cfg: Config, w: World, view: View, slots: seq<Slot>, i: nat)
    requires !IctAborts(cfg, w, view, slots, i)
    ensures var op := IctOpAt(cfg, w, view, slots, i);
      var upTo := IctOps(cfg, w, view, slots, i) + [op];
      && IctOps(cfg, w, view, slots, i + 1) == (if op.fault == NoFault then upTo + SlotAt(slots, i).handled else upTo)
      && (IctAborts(cfg, w, view, slots, i + 1) <==> op.fault != NoFault)
  {
    hide IctOpAt;
  }

  lemma NoIctSteps(cfg: Config, w: World, view: View, slots: seq<Slot>)
    ensures IctOps(cfg, w, view, slots, 0) == [] && !IctAborts(cfg, w, view, slots, 0) && Run(cfg, w, []) == w
  {
  }

  lemma {:induction false} IctStaysAborted(cfg: Config, w: World, view: View, slots: seq<Slot>, m: nat, n: nat)
    requires m <= n && IctAborts(cfg, w, view, slots, m)
    ensures IctAborts(cfg, w, view, slots, n) && IctOps(cfg, w, view, slots, n) == IctOps(cfg, w, view, slots, m)
  {
    hide IctOpAt;
    if m < n {
      IctStaysAborted(cfg, w, view, slots, m, n - 1);
    }
  }

  /** A run that has come to `done` goes on with a step and what is handled after it. */
  lemma RunIteration(cfg: Config, w: World, done: seq<Op>, step: Op, handled: seq<Op>)
    ensures Run(cfg, w, done + [step]) == Apply(cfg, Run(cfg, w, done), step)
    ensures Run(cfg, w, done + [step] + handled) == Run(cfg, Apply(cfg, Run(cfg, w, done), step), handled)
  {
    RunStep(cfg, w, done, step);
    RunConcat(cfg, w, done + [step], handled);
  }

  /** After an iteration that raises there is no other. */
  lemma {:induction false} StaysAborted(steps: seq<Op>, slots: seq<Slot>, m: nat, n: nat)
    requires m <= n <= |steps| && Aborts(slots, m)
    ensures Aborts(slots, n) && Iterations(steps, slots, n) == Iterations(steps, slots, m)
  {
    if m < n {
      StaysAborted(steps, slots, m, n - 1);
    }
  }

  lemma RunOne(cfg: Config, w: World, op: Op)
    ensures Run(cfg, w, [op]) == Apply(cfg, w, op)
  {
    hide Apply;
    assert [op][..0] == [];
  }

  lemma {:induction false} AllowedConcat(cfg: Config, w: World, a: seq<Op>, b: seq<Op>)
    ensures AllowedRun(cfg, w, a + b) <==> AllowedRun(cfg, w, a) && AllowedRun(cfg, Run(cfg, w, a), b)
  {
    hide Allowed, Run;
    if b == [] {
      assert a + b == a;
    } else {
      var front := b[..|b| - 1];
      AllowedConcat(cfg, w, a, front);
      RunConcat(cfg, w, a, front);
      assert (a + b)[..|a + b| - 1] == a + front;
    }
  }

  // ---------- what a tick that nothing disturbs comes to ----------

  /** The close of the candle that broke structure against the trade; below ten candles there is none, from
      ten to thirteen the search raises. */
  lemma BreakCloseIs(cs: seq<Candle>, d: Direction)
    ensures match BreakClose(cs, d)
      case Raised(e) => e == IndexError && 10 <= |cs| <= 13
      case Success(None) => |cs| < 10 || (|cs| >= 14 && MarketStructure.OppositeBos(cs, d, 0.25) == Success(None))
      case Success(Some(x)) =>
        |cs| >= 14 && exists i :: 0 <= i < |cs| && MarketStructure.OppositeBos(cs, d, 0.25) == Success(Some(i)) && x == cs[i].close
  {
    MarketStructure.OppositeBosRaisesIff(cs, d, 0.25);
    if |cs| >= 14 {
      MarketStructure.OppositeBosIsFirst(cs, d, 0.25);
    }
    hide MarketStructure.OppositeBos;
  }

  lemma {:induction false} QuietIterations(steps: seq<Op>, n: nat)
    requires n <= |steps|
    ensures Iterations(steps, [], n) == steps[..n] && !Aborts([], n)
  {
    if n > 0 {
      QuietIterations(steps, n - 1);
      assert steps[..n] == steps[..n - 1] + [steps[n - 1]] + [];
    }
  }

  lemma {:induction false} QuietIct(cfg: Config, w: World, view: View, n: nat)
    requires !IctAborts(cfg, w, view, [], n)
    ensures var ict := IctOps(cfg, w, view, [], n);
      |ict| == n && forall i :: 0 <= i < n ==> ict[i].IctOp? && ict[i].i == i && ict[i].fault == NoFault
  {
    if n > 0 {
      QuietIct(cfg, w, view, n - 1);
    }
  }

  /** Every step numbered `i` stands at place `i`. */
  ghost predicate ResolvesAll(ops: seq<Op>, n: nat) {
    |ops| == n && forall i :: 0 <= i < n ==> ops[i] == ResolveOp(i, NoFault)
  }

  ghost predicate BooksAll(ops: seq<Op>, first: nat, n: nat) {
    |ops| == n && forall i :: 0 <= i < n ==> ops[i] == SettleOp(first + i, NoFault)
  }

  ghost predicate ManagesAll(ops: seq<Op>, n: nat) {
    |ops| == n && forall i :: 0 <= i < n ==> ops[i].IctOp? && ops[i].i == i && ops[i].fault == NoFault
  }

  ghost predicate TrailsAll(ops: seq<Op>, lines: seq<Option<LineView>>, n: nat) {
    |ops| == n && forall i :: 0 <= i < n ==> ops[i] == LineOp(i, if i < |lines| then lines[i] else None, NoFault)
  }

  /** What follows the reconciliation pass: nothing without an open record that has a ticket, and otherwise
      the exits, the booking of each trade they closed, and all records twice, for breakeven and for
      the safety line. */
  ghost predicate PositionStepsAre(cfg: Config, w: World, view: View, ops: seq<Op>) {
    if OpenTickets(w.table) == {} then ops == []
    else exists settle, ict, lines ::
        && ops == [ExitsOp] + settle + ict + lines
        && BooksAll(settle, |w.book.closed|, |Settled(w.book.positions, w.prices, w.book.contractSize)|)
        && ManagesAll(ict, |Run(cfg, w, [ExitsOp] + settle).table|)
        && TrailsAll(lines, view.lines, |Run(cfg, Run(cfg, w, [ExitsOp] + settle), ict).table|)
  }

  /** Without an open record that has a ticket nothing is managed, so nothing raises: the tick ends with the
      equity, whatever the later loops would have met. */
  lemma IdleTickIs(cfg: Config, w: World, view: View, s: Schedule, w1: World)
    requires !Aborts(s.resolve, |w.table|) && w1 == Run(cfg, w, PassOps(false, |w.table|, s.resolve))
    requires forall i :: 0 <= i < |w1.table| ==> w1.table[i].status != Open || w1.table[i].ticket == ""
    ensures TickOps(cfg, w, view, s) == PassOps(false, |w.table|, s.resolve) + [EquityOp]
  {
    hide Apply, IctOps, ExitOps, PassOps, Run;
    NothingOpen(w1.table);
    var pass := PassOps(false, |w.table|, s.resolve);
    assert pass + [] + [EquityOp] == pass + [EquityOp];
  }

  lemma NothingOpen(table: seq<TradeRecord>)
    requires forall i :: 0 <= i < |table| ==> table[i].status != Open || table[i].ticket == ""
    ensures OpenTickets(table) == {}
  {
    forall r | r in table
      ensures !(r.status == Open && Ticketed(r))
    {
      var i :| 0 <= i < |table| && table[i] == r;
    }
  }

  const QUIET := Schedule([], [], [], [])

  lemma QuietPositions(cfg: Config, w: World, view: View)
    requires !PositionsRaise(cfg, w, view, QUIET)
    ensures PositionStepsAre(cfg, w, view, PositionOps(cfg, w, view, QUIET))
  {
    hide Run, OpenTickets, Settled, IctOps, IctAborts, Iterations, Aborts;
    if OpenTickets(w.table) != {} {
      var n := |Settled(w.book.positions, w.prices, w.book.contractSize)|;
      var settle := SettleSteps(|w.book.closed|, n, []);
      QuietIterations(settle, n);
      assert settle[..n] == settle;
      var w1 := Run(cfg, w, [ExitsOp] + settle);
      assert ExitOps(w, []) == [ExitsOp] + settle;
      var ict := IctOps(cfg, w1, view, [], |w1.table|);
      QuietIct(cfg, w1, view, |w1.table|);
      var w2 := Run(cfg, w1, ict);
      var lines := LineSteps(|w2.table|, view, []);
      QuietIterations(lines, |w2.table|);
      assert lines[..|w2.table|] == lines;
      assert LineOps(w2, view, []) == lines;
      assert BooksAll(settle, |w.book.closed|, n) && ManagesAll(ict, |w1.table|) && TrailsAll(lines, view.lines, |w2.table|);
    }
  }

  /** A tick that nothing disturbs reconciles every record, manages the positions, and ends by publishing
      the equity. */
  lemma QuietTickIs(cfg: Config, w: World, view: View)
    requires !PositionsRaise(cfg, Run(cfg, w, PassOps(false, |w.table|, [])), view, QUIET)
    ensures exists resolve, rest ::
              && ResolvesAll(resolve, |w.table|)
              && PositionStepsAre(cfg, Run(cfg, w, [BeginOp(false)] + resolve + [EndOp]), view, rest)
              && TickOps(cfg, w, view, QUIET) == [BeginOp(false)] + resolve + [EndOp] + rest + [EquityOp]
  {
    hide Run, PositionOps, PositionsRaise, PositionStepsAre, Iterations, Aborts;
    var n := |w.table|;
    var resolve := ResolveSteps(n, []);
    QuietIterations(resolve, n);
    assert resolve[..n] == resolve;
    var pass := [BeginOp(false)] + resolve + [EndOp];
    assert PassOps(false, n, []) == pass;
    var w1 := Run(cfg, w, pass);
    QuietPositions(cfg, w1, view);
    assert ResolvesAll(resolve, n);
  }
}
