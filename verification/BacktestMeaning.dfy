/** What a simulated trade is, in bars, lines and money (services/backtest/engine.py, `run_backtest`). */
module BacktestMeaning {
  import opened Prelude
  import opened Backtest
  import MarketStructure

  // ---------- entry ----------

  /** The bar after the last one of the signal's time, if the signal has a stop, for brackets a target,
      and that bar does not open on the stop. */
  ghost predicate IsEntry(s: Setup, signal: SimSignal, e: nat) {
    && 1 <= e < |s.bars| && s.bars[e - 1].time == signal.time && (forall j :: e <= j < |s.bars| ==> s.bars[j].time != signal.time)
    && signal.sl.Some? && signal.sl.value > 0.0 && s.bars[e].open != signal.sl.value
    && (s.style.Brackets? ==> signal.tp.Some? && signal.tp.value > 0.0)
  }

  lemma {:induction false} LastAt(bars: seq<Candle>, time: int)
    ensures match IndexOf(bars, time)
      case Some(i) => i < |bars| && bars[i].time == time && forall j :: i < j < |bars| ==> bars[j].time != time
      case None => forall j :: 0 <= j < |bars| ==> bars[j].time != time
  {
    if bars != [] && bars[|bars| - 1].time != time {
      LastAt(bars[..|bars| - 1], time);
      assert forall j :: 0 <= j < |bars| - 1 ==> bars[j] == bars[..|bars| - 1][j];
    }
  }

  lemma EntryIff(s: Setup, signal: SimSignal, e: nat)
    ensures EntryOf(s, signal) == Some(e) <==> IsEntry(s, signal, e)
  {
    LastAt(s.bars, signal.time);
  }

  // ---------- the trailing walk ----------

  /** The stop that the line at bar `k` asks for. */
  ghost predicate IsCandidate(d: Direction, lines: seq<Option<real>>, buffer: real, k: nat, x: real)
    requires k < |lines|
  {
    lines[k].Some? && x == (if d == Long then lines[k].value - buffer else lines[k].value + buffer)
  }

  ghost predicate Tighter(d: Direction, x: real, y: real) {
    if d == Long then x >= y else x <= y
  }

  /** The stop in force at bar `j` is the tightest of the initial one and of those the lines asked for
      since the entry. */
  ghost predicate TrailedStop(d: Direction, sl0: real, lines: seq<Option<real>>, buffer: real, first: nat, j: nat, sl: real)
    requires first <= j <= |lines|
  {
    && Tighter(d, sl, sl0)
    && (forall k: nat, x :: first <= k < j && IsCandidate(d, lines, buffer, k, x) ==> Tighter(d, sl, x))
    && (sl == sl0 || exists k: nat :: first <= k < j && IsCandidate(d, lines, buffer, k, sl))
  }

  /** Bar `j` ends the trade: at the stop if it touches it, else at its close if that is beyond the line. */
  ghost predicate EndsOnLine(d: Direction, bars: seq<Candle>, lines: seq<Option<real>>, sl: real, j: nat, exit: Exit)
    requires |lines| == |bars| && j < |bars|
  {
    var touched := if d == Long then bars[j].low <= sl else bars[j].high >= sl;
    if touched then exit == Exit(StopExit, sl, j)
    else
      && lines[j].Some? && (if d == Long then bars[j].close < lines[j].value else bars[j].close > lines[j].value)
      && exit == Exit(SafetyExit, bars[j].close, j)
  }

  ghost predicate PassesLine(d: Direction, sl0: real, bars: seq<Candle>, lines: seq<Option<real>>, buffer: real, first: nat, j: nat)
    requires |lines| == |bars| && first <= j < |bars|
  {
    forall sl, exit :: TrailedStop(d, sl0, lines, buffer, first, j, sl) ==> !EndsOnLine(d, bars, lines, sl, j, exit)
  }

  ghost predicate NoLineExit(d: Direction, sl0: real, bars: seq<Candle>, lines: seq<Option<real>>, buffer: real, first: nat)
    requires |lines| == |bars| && first <= |bars|
  {
    forall j :: first <= j < |bars| ==> PassesLine(d, sl0, bars, lines, buffer, first, j)
  }

  /** The exit is at the first bar from the entry on that ends the trade. */
  ghost predicate IsLineExit(d: Direction, sl0: real, bars: seq<Candle>, lines: seq<Option<real>>, buffer: real, first: nat, exit: Exit)
    requires |lines| == |bars|
  {
    && first <= exit.idx < |bars|
    && (forall j :: first <= j < exit.idx ==> PassesLine(d, sl0, bars, lines, buffer, first, j))
    && exists sl :: TrailedStop(d, sl0, lines, buffer, first, exit.idx, sl) && EndsOnLine(d, bars, lines, sl, exit.idx, exit)
  }

  lemma OneStop(d: Direction, sl0: real, lines: seq<Option<real>>, buffer: real, first: nat, j: nat, x: real, y: real)
    requires first <= j <= |lines|
    requires TrailedStop(d, sl0, lines, buffer, first, j, x) && TrailedStop(d, sl0, lines, buffer, first, j, y)
    ensures x == y
  {
    hide IsCandidate;
  }

  lemma TrailStep(d: Direction, sl0: real, lines: seq<Option<real>>, buffer: real, first: nat, j: nat, sl: real)
    requires first <= j < |lines| && TrailedStop(d, sl0, lines, buffer, first, j, sl)
    ensures TrailedStop(d, sl0, lines, buffer, first, j + 1, if lines[j].Some? then Trail(d, sl, lines[j].value, buffer) else sl)
  {
    var next := if lines[j].Some? then Trail(d, sl, lines[j].value, buffer) else sl;
    assert next == sl || IsCandidate(d, lines, buffer, j, next);
  }

  lemma {:induction false} LineWalkIs(d: Direction, sl0: real, bars: seq<Candle>, lines: seq<Option<real>>, buffer: real,
                                      first: nat, j: nat, sl: real)
    requires |lines| == |bars| && first <= j <= |bars| && TrailedStop(d, sl0, lines, buffer, first, j, sl)
    requires forall i :: first <= i < j ==> PassesLine(d, sl0, bars, lines, buffer, first, i)
    ensures match LineWalk(d, sl, bars, lines, buffer, j)
      case Some(exit) => IsLineExit(d, sl0, bars, lines, buffer, first, exit)
      case None => NoLineExit(d, sl0, bars, lines, buffer, first)
    decreases |bars| - j
  {
    hide TrailedStop, PassesLine, Trail;
    if j < |bars| {
      if exit :| EndsOnLine(d, bars, lines, sl, j, exit) {
        assert LineWalk(d, sl, bars, lines, buffer, j) == Some(exit);
      } else {
        Passes(d, sl0, bars, lines, buffer, first, j, sl);
        TrailStep(d, sl0, lines, buffer, first, j, sl);
        assert !EndsOnLine(d, bars, lines, sl, j, Exit(StopExit, sl, j))
            && !EndsOnLine(d, bars, lines, sl, j, Exit(SafetyExit, bars[j].close, j));
        LineWalkIs(d, sl0, bars, lines, buffer, first, j + 1, if lines[j].Some? then Trail(d, sl, lines[j].value, buffer) else sl);
      }
    }
  }

  lemma Passes(d: Direction, sl0: real, bars: seq<Candle>, lines: seq<Option<real>>, buffer: real, first: nat, j: nat, sl: real)
    requires |lines| == |bars| && first <= j < |bars| && TrailedStop(d, sl0, lines, buffer, first, j, sl)
    requires forall exit :: !EndsOnLine(d, bars, lines, sl, j, exit)
    ensures PassesLine(d, sl0, bars, lines, buffer, first, j)
  {
    hide TrailedStop, EndsOnLine;
    forall x, exit | TrailedStop(d, sl0, lines, buffer, first, j, x)
      ensures !EndsOnLine(d, bars, lines, x, j, exit)
    {
      OneStop(d, sl0, lines, buffer, first, j, sl, x);
    }
  }

  /** The trailing walk ends at the first bar that touches the trailed stop or closes beyond the line,
      and not at all only if no bar does. */
  lemma LineExitIs(d: Direction, sl0: real, bars: seq<Candle>, lines: seq<Option<real>>, buffer: real, first: nat)
    requires |lines| == |bars| && first <= |bars|
    ensures match LineWalk(d, sl0, bars, lines, buffer, first)
      case Some(exit) => IsLineExit(d, sl0, bars, lines, buffer, first, exit)
      case None => NoLineExit(d, sl0, bars, lines, buffer, first)
  {
    LineWalkIs(d, sl0, bars, lines, buffer, first, first, sl0);
  }

  // ---------- the bracket walk ----------

  /** Some bar from the entry to before `j` has gone the configured multiple of the risk. */
  ghost predicate BrokeEven(d: Direction, b: Bracket, bars: seq<Candle>, first: nat, j: nat)
    requires first <= j <= |bars|
  {
    b.breakevenAtR != 0.0
    && exists k :: first <= k < j
                   && if d == Long then bars[k].high - b.entry >= b.breakevenAtR * b.risk
                      else b.entry - bars[k].low >= b.breakevenAtR * b.risk
  }

  /** Bar `j` ends the trade: at the stop, which is the entry once breakeven is reached, at the target, or
      on the break of structure at its close, which breakeven makes no worse than the entry. */
  ghost predicate EndsInBracket(d: Direction, b: Bracket, sl0: real, bars: seq<Candle>, first: nat, j: nat, exit: Exit)
    requires first <= j < |bars|
  {
    var even := BrokeEven(d, b, bars, first, j);
    var sl := if even then b.entry else sl0;
    if (if d == Long then bars[j].low <= sl else bars[j].high >= sl) then exit == Exit(StopExit, sl, j)
    else if if d == Long then bars[j].high >= b.tp else bars[j].low <= b.tp then exit == Exit(TargetExit, b.tp, j)
    else
      && b.bosIdx == Some(j) && exit.reason == BosExit && exit.idx == j
      && if !even then exit.price == bars[j].close
         else if d == Long
         then exit.price >= bars[j].close && exit.price >= b.entry && (exit.price == bars[j].close || exit.price == b.entry)
         else exit.price <= bars[j].close && exit.price <= b.entry && (exit.price == bars[j].close || exit.price == b.entry)
  }

  ghost predicate PassesBracket(d: Direction, b: Bracket, sl0: real, bars: seq<Candle>, first: nat, j: nat)
    requires first <= j < |bars|
  {
    forall exit :: !EndsInBracket(d, b, sl0, bars, first, j, exit)
  }

  ghost predicate NoBracketExit(d: Direction, b: Bracket, sl0: real, bars: seq<Candle>, first: nat) {
    forall j :: first <= j < |bars| ==> PassesBracket(d, b, sl0, bars, first, j)
  }

  ghost predicate IsBracketExit(d: Direction, b: Bracket, sl0: real, bars: seq<Candle>, first: nat, exit: Exit) {
    && first <= exit.idx < |bars| && EndsInBracket(d, b, sl0, bars, first, exit.idx, exit)
    && forall j :: first <= j < exit.idx ==> PassesBracket(d, b, sl0, bars, first, j)
  }

  ghost predicate StopAfter(d: Direction, b: Bracket, sl0: real, bars: seq<Candle>, first: nat, j: nat, sl: real, even: bool)
    requires first <= j <= |bars|
  {
    even == BrokeEven(d, b, bars, first, j) && sl == if even then b.entry else sl0
  }

  lemma BreakevenStep(d: Direction, b: Bracket, sl0: real, bars: seq<Candle>, first: nat, j: nat, sl: real, even: bool)
    requires first <= j < |bars| && StopAfter(d, b, sl0, bars, first, j, sl, even)
    ensures if !even && ReachesBreakeven(d, b, bars[j]) then StopAfter(d, b, sl0, bars, first, j + 1, b.entry, true)
            else StopAfter(d, b, sl0, bars, first, j + 1, sl, even)
  {
  }

  lemma BarEnds(d: Direction, b: Bracket, sl0: real, bars: seq<Candle>, first: nat, j: nat, sl: real, even: bool)
    requires first <= j < |bars| && StopAfter(d, b, sl0, bars, first, j, sl, even)
    ensures if StopHit(d, bars[j], sl) then EndsInBracket(d, b, sl0, bars, first, j, Exit(StopExit, sl, j))
            else if TargetHit(d, bars[j], b.tp) then EndsInBracket(d, b, sl0, bars, first, j, Exit(TargetExit, b.tp, j))
            else if b.bosIdx == Some(j) then EndsInBracket(d, b, sl0, bars, first, j, Exit(BosExit, BosPrice(d, b, bars[j].close, even), j))
            else PassesBracket(d, b, sl0, bars, first, j)
  {
    hide BrokeEven;
  }

  lemma {:induction false} BracketWalkIs(d: Direction, b: Bracket, sl0: real, bars: seq<Candle>, first: nat, j: nat, sl: real, even: bool)
    requires first <= j <= |bars| && StopAfter(d, b, sl0, bars, first, j, sl, even)
    requires forall i :: first <= i < j ==> PassesBracket(d, b, sl0, bars, first, i)
    ensures match BracketWalk(d, b, sl, even, bars, j)
      case Some(exit) => IsBracketExit(d, b, sl0, bars, first, exit)
      case None => NoBracketExit(d, b, sl0, bars, first)
    decreases |bars| - j
  {
    hide StopAfter, EndsInBracket, PassesBracket, ReachesBreakeven, BosPrice, StopHit, TargetHit;
    if j < |bars| {
      BarEnds(d, b, sl0, bars, first, j, sl, even);
      BreakevenStep(d, b, sl0, bars, first, j, sl, even);
      if !StopHit(d, bars[j], sl) && !TargetHit(d, bars[j], b.tp) && b.bosIdx != Some(j) {
        if !even && ReachesBreakeven(d, b, bars[j]) {
          BracketWalkIs(d, b, sl0, bars, first, j + 1, b.entry, true);
        } else {
          BracketWalkIs(d, b, sl0, bars, first, j + 1, sl, even);
        }
      }
    }
  }

  /** The bracket walk ends at the first bar that touches the stop, meets the target or breaks structure,
      in that order within a bar. */
  lemma BracketExitIs(d: Direction, b: Bracket, sl0: real, bars: seq<Candle>, first: nat)
    requires first <= |bars|
    ensures match BracketWalk(d, b, sl0, false, bars, first)
      case Some(exit) => IsBracketExit(d, b, sl0, bars, first, exit)
      case None => NoBracketExit(d, b, sl0, bars, first)
  {
    BracketWalkIs(d, b, sl0, bars, first, first, sl0, false);
  }

  // ---------- money ----------

  /** Profit is to the risked amount as the move is to the distance of the initial stop. */
  ghost predicate PaysBy(d: Direction, entry: real, sl: real, exit: real, riskAmount: real, pnl: real) {
    var distance := if entry >= sl then entry - sl else sl - entry;
    match d
    case Long => pnl * distance == riskAmount * (exit - entry)
    case Short => pnl * distance == riskAmount * (entry - exit)
  }

  lemma ProfitInUnits(move: real, distance: real, contractSize: real, riskAmount: real)
    requires distance > 0.0 && contractSize > 0.0
    ensures move * contractSize * Volume(riskAmount, distance, contractSize) * distance == riskAmount * move
  {
    var u := distance * contractSize;
    var v := Volume(riskAmount, distance, contractSize);
    assert u > 0.0;
    assert v * u == riskAmount;
    assert move * contractSize * v * distance == move * (v * u);
  }

  /** Every trade enters at the open of its bar and risks the configured percentage of the equity, and its
      profit is that amount times the move in units of the initial risk. */
  lemma TradePays(s: Setup, signal: SimSignal, e: nat, exit: Exit, equity: real)
    requires s.Valid() && IsEntry(s, signal, e)
    ensures var t := TradeFrom(s, signal, e, exit, equity);
      && t.direction == signal.direction && t.entryIdx == e && t.entry == s.bars[e].open && t.exit == exit
      && t.riskAmount * 100.0 == equity * s.riskPercent
      && PaysBy(t.direction, t.entry, signal.sl.value, exit.price, t.riskAmount, t.pnl)
  {
    var px, sl := s.bars[e].open, signal.sl.value;
    var t := TradeFrom(s, signal, e, exit, equity);
    var distance := if px >= sl then px - sl else sl - px;
    assert t.riskAmount == equity * (s.riskPercent / 100.0);
    assert equity * (s.riskPercent / 100.0) * 100.0 == equity * s.riskPercent;
    var move := if t.direction == Long then exit.price - px else px - exit.price;
    assert Sign(t.direction) * (exit.price - px) == move;
    ProfitInUnits(move, distance, s.contractSize, t.riskAmount);
  }

  /** An exit at a protective initial stop loses exactly the amount risked; one that moves a multiple of
      the initial risk pays that multiple of it. */
  lemma PaysItsMultiple(d: Direction, entry: real, sl: real, exit: real, riskAmount: real, pnl: real, multiple: real)
    requires PaysBy(d, entry, sl, exit, riskAmount, pnl) && entry != sl
    ensures exit == sl && (if d == Long then sl < entry else sl > entry) ==> pnl == -riskAmount
    ensures (if d == Long then exit - entry else entry - exit) == multiple * (if entry >= sl then entry - sl else sl - entry)
            ==> pnl == multiple * riskAmount
  {
    var distance := if entry >= sl then entry - sl else sl - entry;
    var move := if d == Long then exit - entry else entry - exit;
    if move == multiple * distance {
      assert (pnl - multiple * riskAmount) * distance == pnl * distance - riskAmount * (multiple * distance);
    }
    if exit == sl && (if d == Long then sl < entry else sl > entry) {
      assert (pnl + riskAmount) * distance == pnl * distance - riskAmount * move;
    }
  }

  // ---------- a simulated signal ----------

  /** The structure break against the trade, searched from the entry bar on if early exit is on. */
  ghost predicate IsBreak(s: Setup, d: Direction, e: nat, bosIdx: Option<nat>)
    requires e < |s.bars|
  {
    if s.style.Brackets? && s.style.exitOnBos then
      match MarketStructure.OppositeBos(s.bars[e..], d, 0.25)
      case Raised(_) => false
      case Success(None) => bosIdx == None
      case Success(Some(k)) => bosIdx == Some(e + k)
    else bosIdx == None
  }

  ghost predicate ExitsAt(s: Setup, signal: SimSignal, e: nat, bosIdx: Option<nat>, exit: Exit)
    requires s.Valid() && IsEntry(s, signal, e)
  {
    var d, px, sl := signal.direction, s.bars[e].open, signal.sl.value;
    match s.style
    case Lines(buffer, support, resistance) => IsLineExit(d, sl, s.bars, if d == Long then support else resistance, buffer, e, exit)
    case Brackets(breakevenAtR, _) =>
      IsBracketExit(d, Bracket(px, if px >= sl then px - sl else sl - px, signal.tp.value, breakevenAtR, bosIdx), sl, s.bars, e, exit)
  }

  ghost predicate NeverExits(s: Setup, signal: SimSignal, e: nat, bosIdx: Option<nat>)
    requires s.Valid() && IsEntry(s, signal, e)
  {
    var d, px, sl := signal.direction, s.bars[e].open, signal.sl.value;
    match s.style
    case Lines(buffer, support, resistance) =>
      NoLineExit(d, sl, s.bars, if d == Long then support else resistance, buffer, e)
    case Brackets(breakevenAtR, _) =>
      NoBracketExit(d, Bracket(px, if px >= sl then px - sl else sl - px, signal.tp.value, breakevenAtR, bosIdx), sl, s.bars, e)
  }

  lemma ExitFromIs(s: Setup, signal: SimSignal, e: nat, bosIdx: Option<nat>)
    requires s.Valid() && IsEntry(s, signal, e)
    ensures match ExitFrom(s, signal, e, bosIdx)
      case Some(exit) => ExitsAt(s, signal, e, bosIdx, exit)
      case None => NeverExits(s, signal, e, bosIdx)
  {
    hide LineWalk, BracketWalk, IsLineExit, IsBracketExit, NoLineExit, NoBracketExit;
    var d, px, sl := signal.direction, s.bars[e].open, signal.sl.value;
    match s.style
    case Lines(buffer, support, resistance) => LineExitIs(d, sl, s.bars, if d == Long then support else resistance, buffer, e);
    case Brackets(breakevenAtR, _) =>
      BracketExitIs(d, Bracket(px, if px >= sl then px - sl else sl - px, signal.tp.value, breakevenAtR, bosIdx), sl, s.bars, e);
  }

  /** A signal is simulated into a trade that enters at its entry bar and leaves at the first bar that ends
      it, with the profit of that; into none without an entry or an exit; and it raises exactly where the
      search for the structure break does. */
  lemma SimulateIs(s: Setup, signal: SimSignal, equity: real)
    requires s.Valid()
    ensures match Simulate(s, signal, equity)
      case Success(Some(t)) =>
        IsEntry(s, signal, t.entryIdx)
        && (exists bosIdx :: IsBreak(s, signal.direction, t.entryIdx, bosIdx) && ExitsAt(s, signal, t.entryIdx, bosIdx, t.exit))
        && t.direction == signal.direction && t.entry == s.bars[t.entryIdx].open && t.riskAmount * 100.0 == equity * s.riskPercent
        && PaysBy(t.direction, t.entry, signal.sl.value, t.exit.price, t.riskAmount, t.pnl)
      case Success(None) =>
        forall e: nat :: IsEntry(s, signal, e) ==>
          exists bosIdx :: IsBreak(s, signal.direction, e, bosIdx) && NeverExits(s, signal, e, bosIdx)
      case Raised(error) =>
        exists e: nat :: IsEntry(s, signal, e) && s.style.Brackets? && s.style.exitOnBos
          && MarketStructure.OppositeBos(s.bars[e..], signal.direction, 0.25) == Raised(error)
  {
    hide EntryOf, IsEntry, ExitFrom, ExitsAt, NeverExits, TradeFrom, PaysBy, MarketStructure.OppositeBos;
    forall e: nat
      ensures EntryOf(s, signal) == Some(e) <==> IsEntry(s, signal, e)
    {
      EntryIff(s, signal, e);
    }
    var entry := EntryOf(s, signal);
    if entry.Some? {
      var e := entry.value;
      var bos := BosFrom(s, signal.direction, e);
      if bos.Success? {
        assert IsBreak(s, signal.direction, e, bos.value);
        ExitFromIs(s, signal, e, bos.value);
        var exit := ExitFrom(s, signal, e, bos.value);
        if exit.Some? {
          TradePays(s, signal, e, exit.value, equity);
          TradeFields(s, signal, e, exit.value, equity);
        }
      }
    }
  }

  lemma TradeFields(s: Setup, signal: SimSignal, e: nat, exit: Exit, equity: real)
    requires s.Valid() && IsEntry(s, signal, e)
    ensures TradeFrom(s, signal, e, exit, equity).entryIdx == e && TradeFrom(s, signal, e, exit, equity).exit == exit
  {
    hide Volume, Profit;
  }

  // ---------- the whole run ----------

  /** The first signal that can be traded gives the only trade of a run, and a signal that raises before it
      ends the run. */
  lemma {:induction false} FirstTradeOnly(s: Setup, signals: seq<SimSignal>, equity: real, n: nat)
    requires s.Valid() && n <= |signals|
    ensures match TradesBelow(s, signals, equity, n)
      case Success(trades) =>
        if trades == [] then forall j :: 0 <= j < n ==> Simulate(s, signals[j], equity) == Success(None)
        else |trades| == 1 && exists k :: 0 <= k < n && Simulate(s, signals[k], equity) == Success(Some(trades[0]))
                                          && forall j :: 0 <= j < k ==> Simulate(s, signals[j], equity) == Success(None)
      case Raised(error) =>
        exists k :: 0 <= k < n && Simulate(s, signals[k], equity) == Raised(error)
                    && forall j :: 0 <= j < k ==> Simulate(s, signals[j], equity) == Success(None)
  {
    hide Simulate;
    if n > 0 {
      FirstTradeOnly(s, signals, equity, n - 1);
    }
  }
}
