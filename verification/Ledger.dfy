/** The two stores of paper trading, the broker's book and the trade table, and the operations of
    the execution service on them (services/execution/service.py). */
module Ledger {
  import opened Prelude
  import opened PaperBroker

  datatype Status = Open | Closed | ManualReview

  /** The empty ticket stands for a missing one. */
  datatype TradeRecord = TradeRecord(
    ticket: Ticket, strategy: string, symbol: string, direction: Direction, volume: real, entry: real,
    sl: Option<real>, tp: Option<real>, status: Status, riskAmount: real,
    closePrice: Option<real>, reason: Option<CloseReason>, pnl: real, pnlR: real, breakevenDone: bool)

  /** A strategy has at most one management model. */
  datatype Management = Plain | Ict(breakevenAtR: real, earlyExit: bool) | Trendline(slBufferAtr: real)

  datatype Config = Config(maxOpen: nat, strategies: map<string, Management>)

  datatype Issue = OrphanIssue(ticket: Ticket) | MissingIssue(ticket: Ticket)

  datatype Event =
    | TradeOpened(filled: Option<Ticket>)
    | TradeRejected
    | TradeClosed(ticket: Ticket)
    | Critical(orphans: set<Ticket>, missing: seq<Ticket>)
    | AccountUpdated(equity: Option<real>)

  /** The locals of a reconciliation pass that is under way: the records and the live tickets it read
      at its start, the orphans among them, those it alerts about and the records it has flagged. */
  datatype Pass = Pass(gate: bool, rows: nat, live: set<Ticket>, orphans: set<Ticket>, alerts: set<Ticket>, missing: seq<Ticket>)

  datatype World = World(book: Book, prices: Prices, table: seq<TradeRecord>,
                         reported: set<Ticket>, issues: set<Issue>, events: seq<Event>, pass: Option<Pass>)

  /** Where an iteration of a monitor loop raises: before it changes anything, when it writes a moved
      stop to the table after the broker has moved it, in the search for a structure break, which comes
      after that move, or when it books a trade that the broker has closed. */
  datatype Fault = NoFault | Raises | StopWriteFails | SearchRaises | BookingFails

  predicate Ticketed(r: TradeRecord) {
    r.ticket != ""
  }

  function TicketSet(ps: seq<Position>): set<Ticket> {
    set p | p in ps :: p.ticket
  }

  function OpenTickets(table: seq<TradeRecord>): set<Ticket> {
    set r | r in table && r.status == Open && Ticketed(r) :: r.ticket
  }

  function OpenCount(table: seq<TradeRecord>): nat {
    if table == [] then 0 else OpenCount(table[..|table| - 1]) + (if table[|table| - 1].status == Open then 1 else 0)
  }

  // ---------- settlement ----------

  function SettleRow(r: TradeRecord, c: ClosedTrade): TradeRecord {
    r.(status := Closed, closePrice := Some(c.closePrice), reason := Some(c.reason), pnl := c.pnl,
       pnlR := if r.riskAmount > 0.0 then c.pnl / r.riskAmount else r.pnlR)
  }

  predicate IsOpenFor(r: TradeRecord, ticket: Ticket) {
    r.status == Open && r.ticket == ticket
  }

  function FirstOpen(table: seq<TradeRecord>, ticket: Ticket): (r: Option<nat>)
    ensures r.Some? ==> r.value < |table| && IsOpenFor(table[r.value], ticket)
    ensures r.Some? ==> forall i :: 0 <= i < r.value ==> !IsOpenFor(table[i], ticket)
    ensures r.None? ==> forall i :: 0 <= i < |table| ==> !IsOpenFor(table[i], ticket)
  {
    if table == [] then None
    else
      var front := FirstOpen(table[..|table| - 1], ticket);
      if front.Some? then front
      else if IsOpenFor(table[|table| - 1], ticket) then Some(|table| - 1)
      else None
  }

  /** Book a closed trade in the table: only a row still OPEN under its ticket is touched. */
  function Settle(w: World, c: ClosedTrade): World {
    var i := FirstOpen(w.table, c.ticket);
    if i.None? then w
    else w.(table := w.table[i.value := SettleRow(w.table[i.value], c)], events := w.events + [TradeClosed(c.ticket)])
  }

  function AfterCloseAt(w: World, p: nat, price: real, reason: CloseReason): World
    requires p < |w.book.positions|
  {
    w.(book := AfterClose(w.book, p, price, reason))
  }

  /** Close at the broker, then book; a booking that fails leaves the close. */
  function CloseAndSettle(w: World, p: nat, price: real, reason: CloseReason, fault: Fault): World
    requires p < |w.book.positions|
  {
    if fault == BookingFails then AfterCloseAt(w, p, price, reason)
    else Settle(AfterCloseAt(w, p, price, reason), TradeOf(w.book.positions[p], price, reason, w.book.contractSize))
  }

  // ---------- opening ----------

  datatype Order = Order(strategy: string, symbol: string, direction: Direction, volume: real,
                         sl: Option<real>, tp: Option<real>, riskAmount: real)

  function PositionFor(o: Order, ticket: Ticket, px: real): Position {
    Position(ticket, o.symbol, o.direction, o.volume, Round2(px), o.sl, o.tp)
  }

  function RecordFor(o: Order, p: Position): TradeRecord {
    TradeRecord(p.ticket, o.strategy, o.symbol, o.direction, o.volume, p.entry, o.sl, o.tp, Open, o.riskAmount,
                None, None, 0.0, 0.0, false)
  }

  /** The critical section of `_on_signal_approved`. `insertable` says whether the trade row meets
      the schema's constraints; when it does not, the insert is rolled back after the order was
      sent, and the second attempt sends another. `t1` and `t2` are the tickets drawn. */
  function Approve(cfg: Config, w: World, o: Order, t1: Ticket, t2: Ticket, insertable: bool): World {
    var px := LastPrice(w.prices, o.symbol);
    if (cfg.maxOpen > 0 && OpenCount(w.table) >= cfg.maxOpen) || px.None? then w.(events := w.events + [TradeRejected])
    else
      var p := PositionFor(o, t1, px.value);
      if insertable
      then w.(book := WithPosition(w.book, p), table := w.table + [RecordFor(o, p)], events := w.events + [TradeOpened(Some(t1))])
      else w.(book := WithPosition(WithPosition(w.book, p), PositionFor(o, t2, px.value)), events := w.events + [TradeOpened(None)])
  }

  // ---------- reconciliation ----------

  function FirstClosed(cs: seq<ClosedTrade>, ticket: Ticket): (r: Option<ClosedTrade>)
    ensures r.Some? ==> r.value in cs && r.value.ticket == ticket
    ensures r.None? ==> forall c :: c in cs ==> c.ticket != ticket
  {
    if cs == [] then None
    else
      var front := FirstClosed(cs[..|cs| - 1], ticket);
      if front.Some? then front
      else if cs[|cs| - 1].ticket == ticket then Some(cs[|cs| - 1])
      else None
  }

  predicate IsMissing(r: TradeRecord, live: set<Ticket>) {
    r.status == Open && Ticketed(r) && r.ticket !in live
  }

  function ResolveRow(r: TradeRecord, live: set<Ticket>, closed: seq<ClosedTrade>): TradeRecord {
    if !IsMissing(r, live) then r
    else
      match FirstClosed(closed, r.ticket)
      case Some(c) => SettleRow(r, c)
      case None => r.(status := ManualReview)
  }

  function ResolveTable(table: seq<TradeRecord>, live: set<Ticket>, closed: seq<ClosedTrade>): (t: seq<TradeRecord>)
    ensures |t| == |table|
  {
    seq(|table|, i requires 0 <= i < |table| => ResolveRow(table[i], live, closed))
  }

  /** The ticket of a record that is flagged for manual review. */
  function Flagged(r: TradeRecord, live: set<Ticket>, closed: seq<ClosedTrade>): seq<Ticket> {
    if IsMissing(r, live) && FirstClosed(closed, r.ticket).None? then [r.ticket] else []
  }

  /** The event of a record that is settled from history. */
  function ResolvedEvents(r: TradeRecord, live: set<Ticket>, closed: seq<ClosedTrade>): seq<Event> {
    if IsMissing(r, live) && FirstClosed(closed, r.ticket).Some? then [TradeClosed(r.ticket)] else []
  }

  /** The tickets flagged for manual review, in table order. */
  function Unexplained(table: seq<TradeRecord>, live: set<Ticket>, closed: seq<ClosedTrade>): seq<Ticket> {
    if table == [] then []
    else Unexplained(table[..|table| - 1], live, closed) + Flagged(table[|table| - 1], live, closed)
  }

  function LateCloses(table: seq<TradeRecord>, live: set<Ticket>, closed: seq<ClosedTrade>): seq<Event> {
    if table == [] then []
    else LateCloses(table[..|table| - 1], live, closed) + ResolvedEvents(table[|table| - 1], live, closed)
  }

  function Orphans(w: World): set<Ticket> {
    TicketSet(w.book.positions) - OpenTickets(w.table)
  }

  function OrphanIssues(orphans: set<Ticket>): set<Issue> {
    set t | t in orphans :: OrphanIssue(t)
  }

  function MissingIssues(missing: seq<Ticket>): set<Issue> {
    set t | t in missing :: MissingIssue(t)
  }

  /** A pass reads positions and records, remembers the orphans as reported and, at startup, records
      them for the gate. */
  function BeginPass(w: World, gate: bool): World {
    var orphans := Orphans(w);
    w.(pass := Some(Pass(gate, |w.table|, TicketSet(w.book.positions), orphans, orphans - w.reported, [])),
       reported := w.reported + orphans, issues := if gate then w.issues + OrphanIssues(orphans) else w.issues)
  }

  predicate Resolves(w: World, i: nat) {
    w.pass.Some? && i < w.pass.value.rows && i < |w.table| && IsMissing(w.table[i], w.pass.value.live)
  }

  /** A missing record is settled from what history holds by now, or flagged. */
  function ResolveRecord(w: World, i: nat): World {
    if !Resolves(w, i) then w
    else
      var r, pass := w.table[i], w.pass.value;
      match FirstClosed(w.book.closed, r.ticket)
      case Some(c) => Settle(w, c)
      case None =>
        w.(table := w.table[i := r.(status := ManualReview)], pass := Some(pass.(missing := pass.missing + [r.ticket])),
           issues := if pass.gate then w.issues + {MissingIssue(r.ticket)} else w.issues)
  }

  /** The end of a pass forgets the orphans that went away and publishes its alerts. */
  function EndPass(w: World): World {
    if w.pass.None? then w
    else
      var pass := w.pass.value;
      w.(pass := None, reported := w.reported * pass.orphans,
         events := w.events + (if pass.alerts != {} || pass.missing != [] then [Critical(pass.alerts, pass.missing)] else []))
  }

  /** What a whole pass of `_reconcile_with_broker` comes to when nothing happens in between. */
  function Reconcile(w: World, gate: bool): World {
    var live, closed := TicketSet(w.book.positions), w.book.closed;
    var alerts, missing := Orphans(w) - w.reported, Unexplained(w.table, live, closed);
    w.(table := ResolveTable(w.table, live, closed), reported := Orphans(w), pass := None,
       issues := if gate then w.issues + OrphanIssues(Orphans(w)) + MissingIssues(missing) else w.issues,
       events := w.events + LateCloses(w.table, live, closed)
                 + (if alerts != {} || missing != [] then [Critical(alerts, missing)] else []))
  }

  // ---------- position management ----------

  /** A missing or zero stop leaves no risk. */
  function Risk(r: TradeRecord): real {
    Abs(r.entry - (if r.sl.Some? && r.sl.value != 0.0 then r.sl.value else r.entry))
  }

  function ProfitInR(r: TradeRecord, px: real): real
    requires Risk(r) > 0.0
  {
    Sign(r.direction) * (px - r.entry) / Risk(r)
  }

  function ManagementOf(cfg: Config, r: TradeRecord): Management {
    if r.strategy in cfg.strategies then cfg.strategies[r.strategy] else Plain
  }

  /** Move the stop at the broker, then in the table; a write that fails leaves the two apart. */
  function MoveStop(w: World, i: nat, p: nat, sl: real, breakeven: bool, fault: Fault): World
    requires i < |w.table| && p < |w.book.positions|
  {
    var w1 := w.(book := WithStop(w.book, p, sl));
    if fault == StopWriteFails then w1
    else w1.(table := w.table[i := w.table[i].(sl := Some(sl), breakevenDone := breakeven || w.table[i].breakevenDone)])
  }

  predicate BreakevenDue(m: Management, r: TradeRecord, px: Option<real>)
    requires m.Ict? && Risk(r) > 0.0
  {
    m.breakevenAtR != 0.0 && !r.breakevenDone && px.Some? && ProfitInR(r, px.value) >= m.breakevenAtR
  }

  predicate ManagedIct(cfg: Config, w: World, i: nat)
    requires i < |w.table|
  {
    var r := w.table[i];
    r.status == Open && ManagementOf(cfg, r).Ict? && Find(w.book.positions, r.ticket).Some? && Risk(r) > 0.0
  }

  /** One record under breakeven management; `bosClose` is the close of the candle that broke
      structure against the trade, if one did. */
  function ManageIctRow(cfg: Config, w: World, i: nat, bosClose: Option<real>, fault: Fault): World {
    if fault == Raises || i >= |w.table| || !ManagedIct(cfg, w, i) then w
    else
      var r := w.table[i];
      var m, p := ManagementOf(cfg, r), Find(w.book.positions, r.ticket).value;
      var due := BreakevenDue(m, r, LastPrice(w.prices, r.symbol));
      var w1 := if due then MoveStop(w, i, p, Round2(r.entry), true, fault) else w;
      if m.earlyExit && bosClose.Some? && fault != SearchRaises && !(due && fault == StopWriteFails)
      then CloseAndSettle(w1, p, bosClose.value, OppositeBos, fault) else w1
  }

  /** The latest candle of the symbol and the safety line at its time. */
  datatype LineView = LineView(safety: Option<real>, close: real, atr: Option<real>)

  predicate BeyondLine(d: Direction, close: real, safety: real) {
    if d == Long then close < safety else close > safety
  }

  function TrailCandidate(d: Direction, safety: real, atr: Option<real>, slBufferAtr: real): real {
    var buffer := slBufferAtr * (if atr.Some? && atr.value > 0.0 then atr.value else 1.0);
    Round2(if d == Long then safety - buffer else safety + buffer)
  }

  predicate Tightens(d: Direction, sl: Option<real>, candidate: real) {
    sl.None? || (if d == Long then candidate > sl.value else candidate < sl.value)
  }

  predicate ManagedLine(cfg: Config, w: World, i: nat, view: Option<LineView>)
    requires i < |w.table|
  {
    var r := w.table[i];
    && r.status == Open && ManagementOf(cfg, r).Trendline? && Find(w.book.positions, r.ticket).Some?
    && view.Some? && view.value.safety.Some?
  }

  /** One record under the safety line: closed beyond it, otherwise trailed if that tightens. */
  function ManageLineRow(cfg: Config, w: World, i: nat, view: Option<LineView>, fault: Fault): World {
    if fault == Raises || fault == SearchRaises || i >= |w.table| || !ManagedLine(cfg, w, i, view) then w
    else
      var r, v := w.table[i], view.value;
      var m, p := ManagementOf(cfg, r), Find(w.book.positions, r.ticket).value;
      if BeyondLine(r.direction, v.close, v.safety.value) then CloseAndSettle(w, p, v.close, SafetyLine, fault)
      else
        var candidate := TrailCandidate(r.direction, v.safety.value, v.atr, m.slBufferAtr);
        if Tightens(r.direction, r.sl, candidate) then MoveStop(w, i, p, candidate, false, fault) else w
  }

  /** What the market shows each row during one pass: the M5 candles since its opening, and its line. */
  datatype View = View(since: seq<seq<Candle>>, lines: seq<Option<LineView>>)

  function At<T>(xs: seq<Option<T>>, i: nat): Option<T> {
    if i < |xs| then xs[i] else None
  }

  /** The trades that an evaluation of the exits closes are booked one by one afterwards. */
  function ExitsAt(w: World): World {
    w.(book := AfterExits(w.book, w.prices))
  }

  function SettleAt(w: World, k: nat, fault: Fault): World {
    if fault == NoFault && k < |w.book.closed| then Settle(w, w.book.closed[k]) else w
  }

  // ---------- runs ----------

  /** What the service does between two points at which it may be interrupted: a quote, an approved
      signal, and the steps of a monitor tick. */
  datatype Op =
    | QuoteOp(symbol: string, quote: Quote)
    | ApproveOp(order: Order, t1: Ticket, t2: Ticket, insertable: bool)
    | BeginOp(gate: bool)
    | ResolveOp(i: nat, fault: Fault)
    | EndOp
    | AbortOp
    | ExitsOp
    | SettleOp(k: nat, fault: Fault)
    | IctOp(i: nat, bosClose: Option<real>, fault: Fault)
    | LineOp(i: nat, view: Option<LineView>, fault: Fault)
    | EquityOp

  function Apply(cfg: Config, w: World, op: Op): World {
    match op
    case QuoteOp(symbol, quote) => w.(prices := w.prices[symbol := quote])
    case ApproveOp(o, t1, t2, insertable) => Approve(cfg, w, o, t1, t2, insertable)
    case BeginOp(gate) => BeginPass(w, gate)
    case ResolveOp(i, fault) => if fault == NoFault then ResolveRecord(w, i) else w
    case EndOp => EndPass(w)
    case AbortOp => w.(pass := None)
    case ExitsOp => ExitsAt(w)
    case SettleOp(k, fault) => SettleAt(w, k, fault)
    case IctOp(i, bosClose, fault) => ManageIctRow(cfg, w, i, bosClose, fault)
    case LineOp(i, view, fault) => ManageLineRow(cfg, w, i, view, fault)
    case EquityOp => w.(events := w.events + [AccountUpdated(Equity(w.book, w.prices))])
  }

  function Run(cfg: Config, w: World, ops: seq<Op>): World {
    if ops == [] then w else Apply(cfg, Run(cfg, w, ops[..|ops| - 1]), ops[|ops| - 1])
  }

  /** A drawn ticket is not blank and was never used, by this broker or in the table. */
  ghost predicate FreshTicket(w: World, t: Ticket) {
    t != "" && Issued(w.book, t) == 0 && forall i :: 0 <= i < |w.table| ==> w.table[i].ticket != t
  }

  ghost predicate Allowed(w: World, op: Op) {
    op.ApproveOp? ==> FreshTicket(w, op.t1) && FreshTicket(w, op.t2) && op.t1 != op.t2
  }

  ghost predicate AllowedRun(cfg: Config, w: World, ops: seq<Op>) {
    ops == [] || (AllowedRun(cfg, w, ops[..|ops| - 1]) && Allowed(Run(cfg, w, ops[..|ops| - 1]), ops[|ops| - 1]))
  }
}
