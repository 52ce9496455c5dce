/** Runs of a fresh process on which the awaits and faults of a tick show: a close left pending, a
    stop loosened, an alert lost. */
module LedgerWitnesses {
  import opened Prelude
  import opened PaperBroker
  import opened Ledger
  import opened LedgerInvariants
  import opened LedgerStops
  import LedgerConservation
  import OrphanAlerts
  import StopAgreement

  function BuyWith(sl: real): Order {
    Order("s", "X", Long, 1.0, Some(sl), None, 10.0)
  }

  function Managed(m: Management): Config {
    Config(0, map["s" := m])
  }

  function Fresh(rows: seq<TradeRecord>): World {
    StartWorld(1.0, 0.0, rows)
  }

  function Bought(sl: real): Position {
    Position("1", "X", Long, 1.0, 100.0, Some(sl), None)
  }

  function Row(sl: real, breakevenDone: bool): TradeRecord {
    RecordFor(BuyWith(sl), Bought(sl)).(breakevenDone := breakevenDone)
  }

  /** A long bought at 100. */
  function Opening(sl: real): seq<Op> {
    [QuoteOp("X", Quote(100.0, 100.0)), ApproveOp(BuyWith(sl), "1", "2", true)]
  }

  function OpenWorld(sl: real): World {
    World(Book(1.0, 0.0, [Bought(sl)], []), map["X" := Quote(100.0, 100.0)], [Row(sl, false)], {}, {}, [TradeOpened(Some("1"))], None)
  }

  lemma Extend(cfg: Config, w: World, ops: seq<Op>, op: Op)
    requires AllowedRun(cfg, w, ops) && Allowed(Run(cfg, w, ops), op)
    ensures AllowedRun(cfg, w, ops + [op]) && Run(cfg, w, ops + [op]) == Apply(cfg, Run(cfg, w, ops), op)
  {
    hide Allowed, Apply;
    assert (ops + [op])[..|ops|] == ops;
  }

  /** The run is allowed and ends in that world, having made those passes. */
  ghost predicate Reaches(cfg: Config, start: World, ops: seq<Op>, end: World, passes: seq<OrphanAlerts.Sight>) {
    AllowedRun(cfg, start, ops) && Run(cfg, start, ops) == end && OrphanAlerts.Passes(cfg, start, ops) == passes
  }

  lemma Goes(cfg: Config, start: World, ops: seq<Op>, now: World, passes: seq<OrphanAlerts.Sight>, op: Op, after: World)
    requires Reaches(cfg, start, ops, now, passes) && Apply(cfg, now, op) == after && (op.ApproveOp? ==> Allowed(now, op))
    requires !op.BeginOp? && !op.EndOp?
    ensures Reaches(cfg, start, ops + [op], after, passes)
  {
    assert Allowed(now, op);
    hide Allowed, Apply;
    Extend(cfg, start, ops, op);
    assert (ops + [op])[..|ops|] == ops;
  }

  lemma Begins(cfg: Config, start: World, ops: seq<Op>, now: World, passes: seq<OrphanAlerts.Sight>, after: World)
    requires Reaches(cfg, start, ops, now, passes) && Apply(cfg, now, BeginOp(false)) == after
    ensures Reaches(cfg, start, ops + [BeginOp(false)], after, passes + [OrphanAlerts.Sight(Orphans(now), false)])
  {
    hide Apply, Orphans;
    assert Allowed(now, BeginOp(false));
    Extend(cfg, start, ops, BeginOp(false));
    assert (ops + [BeginOp(false)])[..|ops|] == ops;
  }

  lemma Ends(cfg: Config, start: World, ops: seq<Op>, now: World, passes: seq<OrphanAlerts.Sight>, last: OrphanAlerts.Sight, after: World)
    requires Reaches(cfg, start, ops, now, passes + [last]) && now.pass.Some? && Apply(cfg, now, EndOp) == after
    ensures Reaches(cfg, start, ops + [EndOp], after, passes + [last.(finished := true)])
  {
    hide Apply, Orphans;
    assert Allowed(now, EndOp);
    Extend(cfg, start, ops, EndOp);
    assert (ops + [EndOp])[..|ops|] == ops && (passes + [last])[..|passes|] == passes;
  }

  lemma Nothing(cfg: Config, start: World)
    ensures Reaches(cfg, start, [], start, [])
  {
  }

  lemma Opens(cfg: Config, sl: real)
    requires cfg.maxOpen == 0
    ensures Reaches(cfg, Fresh([]), Opening(sl), OpenWorld(sl), [])
  {
    var quote, approve := QuoteOp("X", Quote(100.0, 100.0)), ApproveOp(BuyWith(sl), "1", "2", true);
    var w1 := Fresh([]).(prices := map["X" := Quote(100.0, 100.0)]);
    Approves(cfg, sl);
    assert Apply(cfg, Fresh([]), quote) == w1;
    assert [] + [quote] == [quote] && Opening(sl) == [quote] + [approve];
    hide Apply, Allowed, Reaches, Fresh, OpenWorld;
    Nothing(cfg, Fresh([]));
    Goes(cfg, Fresh([]), [], Fresh([]), [], quote, w1);
    Goes(cfg, Fresh([]), [quote], w1, [], approve, OpenWorld(sl));
  }

  lemma Approves(cfg: Config, sl: real)
    requires cfg.maxOpen == 0
    ensures var w, op := Fresh([]).(prices := map["X" := Quote(100.0, 100.0)]), ApproveOp(BuyWith(sl), "1", "2", true);
      Allowed(w, op) && Apply(cfg, w, op) == OpenWorld(sl)
  {
    Round2OfWholeCents(100.0);
    assert LastPrice(map["X" := Quote(100.0, 100.0)], "X") == Some(100.0);
  }

  /** The opened world at another quote. */
  function QuotedAt(sl: real, price: real): World {
    OpenWorld(sl).(prices := map["X" := Quote(price, price)])
  }

  lemma Quotes(cfg: Config, sl: real, price: real)
    ensures Apply(cfg, OpenWorld(sl), QuoteOp("X", Quote(price, price))) == QuotedAt(sl, price)
  {
  }

  // ---------- a pending close ----------

  function Stopped(): ClosedTrade {
    TradeOf(Bought(90.0), 90.0, StopLoss, 1.0)
  }

  /** The close is in the balance, its record is still OPEN. */
  function Pending(): World {
    QuotedAt(90.0, 80.0).(book := Book(1.0, -10.0, [], [Stopped()]))
  }

  function PendingOps(): seq<Op> {
    Opening(90.0) + [QuoteOp("X", Quote(80.0, 80.0))] + [ExitsOp] + [SettleOp(0, BookingFails)]
  }

  /** The exits close the position and its booking raises: what is booked falls short of the balance
      by the pending close. */
  lemma PendingIsReachable(cfg: Config)
    requires cfg.maxOpen == 0
    ensures Inv(Fresh([]), 0.0) && Reaches(cfg, Fresh([]), PendingOps(), Pending(), [])
    ensures LedgerConservation.PnlWith(Pending().book.closed, Pending().table, Open) == -10.0 == Pending().book.balance
  {
    hide Inv, Apply, Allowed, Opening, OpenWorld, QuotedAt, Pending, Fresh, Reaches, LedgerConservation.PnlWith;
    var quote := QuoteOp("X", Quote(80.0, 80.0));
    FreshStarts();
    StartKeeps(1.0, 0.0, []);
    Opens(cfg, 90.0);
    Quotes(cfg, 90.0, 80.0);
    ExitsPend(cfg);
    PendingTen();
    Goes(cfg, Fresh([]), Opening(90.0), OpenWorld(90.0), [], quote, QuotedAt(90.0, 80.0));
    Goes(cfg, Fresh([]), Opening(90.0) + [quote], QuotedAt(90.0, 80.0), [], ExitsOp, Pending());
    Goes(cfg, Fresh([]), Opening(90.0) + [quote] + [ExitsOp], Pending(), [], SettleOp(0, BookingFails), Pending());
  }

  lemma FreshStarts()
    ensures Fresh([]) == StartWorld(1.0, 0.0, []) && UniqueTickets([])
  {
  }

  lemma ExitsPend(cfg: Config)
    ensures Apply(cfg, QuotedAt(90.0, 80.0), ExitsOp) == Pending() && Apply(cfg, Pending(), SettleOp(0, BookingFails)) == Pending()
  {
    ExitsStopped();
    hide AfterExits;
  }

  lemma ExitsStopped()
    ensures AfterExits(Book(1.0, 0.0, [Bought(90.0)], []), map["X" := Quote(80.0, 80.0)]) == Book(1.0, -10.0, [], [Stopped()])
  {
    var p, prices := Bought(90.0), map["X" := Quote(80.0, 80.0)];
    assert ExitOf(p, prices) == Some((90.0, StopLoss));
    assert [p][..0] == [] && Remaining([p], prices) == [] && Settled([p], prices, 1.0) == [Stopped()];
    assert [Stopped()][..0] == [] && SumPnl([Stopped()]) == -10.0;
  }

  lemma PendingTen()
    ensures LedgerConservation.PnlWith(Pending().book.closed, Pending().table, Open) == -10.0 == Pending().book.balance
  {
    var closed, table := Pending().book.closed, Pending().table;
    assert closed == [Stopped()] && closed[..0] == [];
    assert table[0].ticket == Stopped().ticket && table[0].status == Open;
    assert LedgerConservation.HasRow(table, Stopped().ticket, Open);
  }

  // ---------- loosened stops ----------

  lemma StopNotHit(cfg: Config, sl: real, price: real)
    requires price > sl
    ensures Apply(cfg, QuotedAt(sl, price), ExitsOp) == QuotedAt(sl, price)
  {
    var w, p := QuotedAt(sl, price), Bought(sl);
    NoExits(w.prices, 1.0);
    assert [p][..0] == [] && ExitOf(p, w.prices) == None;
    assert Remaining([p], w.prices) == [p] && Settled([p], w.prices, 1.0) == [];
    hide Remaining, Settled, SumPnl;
    assert w.book.closed + [] == w.book.closed;
  }

  function Breakeven(): Config {
    Managed(Ict(1.0, false))
  }

  function AheadOps(): seq<Op> {
    Opening(105.0) + [QuoteOp("X", Quote(106.0, 106.0))] + [ExitsOp]
  }

  lemma AheadIsReachable(cfg: Config)
    requires cfg.maxOpen == 0
    ensures Reaches(cfg, Fresh([]), AheadOps(), QuotedAt(105.0, 106.0), [])
  {
    var quote := QuoteOp("X", Quote(106.0, 106.0));
    Opens(cfg, 105.0);
    Quotes(cfg, 105.0, 106.0);
    StopNotHit(cfg, 105.0, 106.0);
    hide Apply, Allowed, Opening, OpenWorld, QuotedAt, Fresh, Reaches;
    Goes(cfg, Fresh([]), Opening(105.0), OpenWorld(105.0), [], quote, QuotedAt(105.0, 106.0));
    Goes(cfg, Fresh([]), Opening(105.0) + [quote], QuotedAt(105.0, 106.0), [], ExitsOp, QuotedAt(105.0, 106.0));
  }

  /** A long with its stop above its price is stopped out only below that stop; once it is a whole R
      ahead, the move to breakeven takes the stop down. */
  lemma BreakevenCanLoosen()
    ensures Inv(Fresh([]), 0.0) && Reaches(Breakeven(), Fresh([]), AheadOps(), QuotedAt(105.0, 106.0), [])
    ensures QuotedAt(105.0, 106.0).table == [Row(105.0, false)]
    ensures Apply(Breakeven(), QuotedAt(105.0, 106.0), IctOp(0, None, NoFault)).table == [Row(100.0, true)]
    ensures !Evolves([Row(105.0, false)], [Row(100.0, true)])
  {
    StartKeeps(1.0, 0.0, []);
    assert Breakeven().maxOpen == 0;
    hide Inv, Apply, Reaches, Fresh, Evolves, Row, Breakeven, AheadOps;
    AheadIsReachable(Breakeven());
    BreaksEven();
    Loosens();
  }

  lemma Loosens()
    ensures !Evolves([Row(105.0, false)], [Row(100.0, true)])
  {
    assert !RowEvolves([Row(105.0, false)][0], [Row(100.0, true)][0]);
  }

  lemma BreaksEven()
    ensures Apply(Breakeven(), QuotedAt(105.0, 106.0), IctOp(0, None, NoFault)).table == [Row(100.0, true)]
  {
    var w := QuotedAt(105.0, 106.0);
    Round2OfWholeCents(100.0);
    assert [Bought(105.0)][..0] == [];
    var r := w.table[0];
    assert Risk(r) == 5.0 && LastPrice(w.prices, "X") == Some(106.0) && ProfitInR(r, 106.0) == 1.2;
    assert Find(w.book.positions, "1") == Some(0);
  }

  function LineAt(safety: real): Option<LineView> {
    Some(LineView(Some(safety), 100.0, None))
  }

  /** The broker has trailed the stop and the table still holds the old one. */
  function Apart(): World {
    OpenWorld(90.0).(book := Book(1.0, 0.0, [Bought(98.0)], []))
  }

  function ApartOps(): seq<Op> {
    Opening(90.0) + [LineOp(0, LineAt(98.0), StopWriteFails)]
  }

  /** The broker takes a trailed stop, the write to the table is lost, and the next trail, measured
      against the table, takes the broker's stop down again. */
  lemma LostWriteLoosens()
    ensures var cfg := Managed(Trendline(0.0));
      && Inv(Fresh([]), 0.0) && StopAgreement.StopsSame(Fresh([])) && Reaches(cfg, Fresh([]), ApartOps(), Apart(), [])
      && !StopAgreement.NoStopLost(cfg, Fresh([]), ApartOps())
      && Apart().book.positions == [Bought(98.0)]
      && Apply(cfg, Apart(), LineOp(0, LineAt(95.0), NoFault)).book.positions == [Bought(95.0)]
  {
    var cfg, lost := Managed(Trendline(0.0)), LineOp(0, LineAt(98.0), StopWriteFails);
    StartKeeps(1.0, 0.0, []);
    Opens(cfg, 90.0);
    Trails(OpenWorld(90.0), 90.0, 98.0, StopWriteFails);
    Trails(Apart(), 98.0, 95.0, NoFault);
    hide Inv, Apply, Allowed, Opening, OpenWorld, Reaches, StopAgreement.LosesStop, LineAt;
    Goes(cfg, Fresh([]), Opening(90.0), OpenWorld(90.0), [], lost, Apart());
    LosesLast(cfg, Fresh([]), Opening(90.0), OpenWorld(90.0), lost);
  }

  lemma LosesLast(cfg: Config, start: World, ops: seq<Op>, now: World, op: Op)
    requires Reaches(cfg, start, ops, now, []) && StopAgreement.LosesStop(cfg, now, op)
    ensures !StopAgreement.NoStopLost(cfg, start, ops + [op])
  {
    assert (ops + [op])[..|ops|] == ops;
    hide StopAgreement.LosesStop;
  }

  lemma Trails(w: World, brokerStop: real, safety: real, fault: Fault)
    requires w == OpenWorld(90.0).(book := Book(1.0, 0.0, [Bought(brokerStop)], []))
    requires (safety == 98.0 || safety == 95.0) && (fault == NoFault || fault == StopWriteFails)
    ensures var w' := Apply(Managed(Trendline(0.0)), w, LineOp(0, LineAt(safety), fault));
      w'.book == Book(1.0, 0.0, [Bought(safety)], [])
      && (fault == StopWriteFails ==> w' == w.(book := w'.book))
    ensures StopAgreement.LosesStop(Managed(Trendline(0.0)), w, LineOp(0, LineAt(safety), fault)) <==> fault == StopWriteFails
  {
    Round2OfWholeCents(safety);
    assert [Bought(brokerStop)][..0] == [];
    assert Find(w.book.positions, "1") == Some(0);
    assert TrailCandidate(Long, safety, None, 0.0) == safety;
  }

  // ---------- a lost alert ----------

  /** An OPEN record of an earlier process, unknown to this broker. */
  function Stale(): TradeRecord {
    Row(90.0, false).(ticket := "9")
  }

  /** The process holds two orphans; `pass` is under way and has reported what it found. */
  function OrphanedWorld(table: seq<TradeRecord>, reported: set<Ticket>, events: seq<Event>, pass: Option<Pass>): World {
    var p := Bought(90.0);
    World(Book(1.0, 0.0, [p, p.(ticket := "2")], []), map["X" := Quote(100.0, 100.0)], table, reported, {}, events, pass)
  }

  lemma OrphansAre(w: World)
    requires w.book.positions == [Bought(90.0), Bought(90.0).(ticket := "2")] && |w.table| == 1 && w.table[0].ticket == "9"
    ensures TicketSet(w.book.positions) == {"1", "2"} && Orphans(w) == {"1", "2"}
  {
    var ps := w.book.positions;
    assert ps[0] in ps && ps[1] in ps;
  }

  lemma Strands(cfg: Config)
    requires cfg.maxOpen == 0
    ensures var w, op := Fresh([Stale()]).(prices := map["X" := Quote(100.0, 100.0)]), ApproveOp(BuyWith(90.0), "1", "2", false);
      Allowed(w, op) && Apply(cfg, w, op) == OrphanedWorld([Stale()], {}, [TradeOpened(None)], None)
  {
    Round2OfWholeCents(100.0);
    assert LastPrice(map["X" := Quote(100.0, 100.0)], "X") == Some(100.0);
    assert [] + [Bought(90.0)] + [Bought(90.0).(ticket := "2")] == [Bought(90.0), Bought(90.0).(ticket := "2")];
  }

  function Stranding(): seq<Op> {
    [QuoteOp("X", Quote(100.0, 100.0)), ApproveOp(BuyWith(90.0), "1", "2", false)]
  }

  lemma Orphaned(cfg: Config)
    requires cfg.maxOpen == 0
    ensures Reaches(cfg, Fresh([Stale()]), Stranding(), OrphanedWorld([Stale()], {}, [TradeOpened(None)], None), [])
  {
    var quote, approve := QuoteOp("X", Quote(100.0, 100.0)), ApproveOp(BuyWith(90.0), "1", "2", false);
    var start := Fresh([Stale()]);
    var w1 := start.(prices := map["X" := Quote(100.0, 100.0)]);
    Strands(cfg);
    assert Apply(cfg, start, quote) == w1;
    assert [] + [quote] == [quote] && Stranding() == [quote] + [approve];
    hide Apply, Allowed, Reaches, Fresh, OrphanedWorld;
    Nothing(cfg, start);
    Goes(cfg, start, [], start, [], quote, w1);
    Goes(cfg, start, [quote], w1, [], approve, OrphanedWorld([Stale()], {}, [TradeOpened(None)], None));
  }

  lemma TwoPasses(t: Ticket, orphans: set<Ticket>)
    requires t in orphans
    ensures var passes := [OrphanAlerts.Sight(orphans, false), OrphanAlerts.Sight(orphans, true)];
      OrphanAlerts.Stays(passes, 2, t) == 1 && OrphanAlerts.Unalerted(passes, 2, t) == 1
  {
    var passes := [OrphanAlerts.Sight(orphans, false), OrphanAlerts.Sight(orphans, true)];
    assert OrphanAlerts.Stays(passes, 1, t) == 1 && OrphanAlerts.Unalerted(passes, 1, t) == 1;
  }

  function PassWith(alerts: set<Ticket>, missing: seq<Ticket>): Option<Pass> {
    Some(Pass(false, 1, {"1", "2"}, {"1", "2"}, alerts, missing))
  }

  /** What the steps of the two passes do to the orphaned world. */
  lemma PassEffects(cfg: Config, reported: set<Ticket>, events: seq<Event>)
    requires reported == {} || reported == {"1", "2"}
    ensures var alerts := {"1", "2"} - reported;
      && Apply(cfg, OrphanedWorld([Stale()], reported, events, None), BeginOp(false))
         == OrphanedWorld([Stale()], {"1", "2"}, events, PassWith(alerts, []))
      && Orphans(OrphanedWorld([Stale()], reported, events, None)) == {"1", "2"}
  {
    OrphansAre(OrphanedWorld([Stale()], reported, events, None));
    hide TicketSet, Orphans;
    assert reported + {"1", "2"} == {"1", "2"};
  }

  lemma FlagsStale(cfg: Config, events: seq<Event>)
    ensures Apply(cfg, OrphanedWorld([Stale()], {"1", "2"}, events, PassWith({}, [])), ResolveOp(0, NoFault))
         == OrphanedWorld([Stale().(status := ManualReview)], {"1", "2"}, events, PassWith({}, ["9"]))
  {
    var flagged := Stale().(status := ManualReview);
    assert [Stale()][0 := flagged] == [flagged] && [] + ["9"] == ["9"];
    assert FirstClosed([], "9") == None;
  }

  /** The two orphans at the points of the two passes. */
  function Seeing(): World {
    OrphanedWorld([Stale()], {"1", "2"}, [TradeOpened(None)], PassWith({"1", "2"}, []))
  }

  function Aborted(): World {
    OrphanedWorld([Stale()], {"1", "2"}, [TradeOpened(None)], None)
  }

  function Again(): World {
    OrphanedWorld([Stale()], {"1", "2"}, [TradeOpened(None)], PassWith({}, []))
  }

  function Flagging(): World {
    OrphanedWorld([Stale().(status := ManualReview)], {"1", "2"}, [TradeOpened(None)], PassWith({}, ["9"]))
  }

  function Silenced(): World {
    OrphanedWorld([Stale().(status := ManualReview)], {"1", "2"}, [TradeOpened(None), Critical({}, ["9"])], None)
  }

  lemma PassesDo(cfg: Config)
    ensures Apply(cfg, OrphanedWorld([Stale()], {}, [TradeOpened(None)], None), BeginOp(false)) == Seeing()
    ensures Orphans(OrphanedWorld([Stale()], {}, [TradeOpened(None)], None)) == {"1", "2"} == Orphans(Aborted())
    ensures Apply(cfg, Seeing(), ResolveOp(0, Raises)) == Seeing() && Apply(cfg, Seeing(), AbortOp) == Aborted()
    ensures Apply(cfg, Aborted(), BeginOp(false)) == Again()
    ensures Apply(cfg, Again(), ResolveOp(0, NoFault)) == Flagging() && Apply(cfg, Flagging(), EndOp) == Silenced()
  {
    PassEffects(cfg, {}, [TradeOpened(None)]);
    PassEffects(cfg, {"1", "2"}, [TradeOpened(None)]);
    FlagsStale(cfg, [TradeOpened(None)]);
    assert {"1", "2"} - {} == {"1", "2"} && {"1", "2"} - {"1", "2"} == {};
    assert [TradeOpened(None)] + [Critical({}, ["9"])] == [TradeOpened(None), Critical({}, ["9"])];
    hide Orphans, Stale, FirstClosed;
  }

  function LosingOps(): seq<Op> {
    Stranding() + [BeginOp(false)] + [ResolveOp(0, Raises)] + [AbortOp] + [BeginOp(false)] + [ResolveOp(0, NoFault)] + [EndOp]
  }

  /** The first pass to see the orphans is aborted by a record whose resolution raises; the next one
      finishes and stays silent about them. */
  lemma AlertCanBeLost(cfg: Config)
    requires cfg.maxOpen == 0
    ensures var passes := [OrphanAlerts.Sight({"1", "2"}, false), OrphanAlerts.Sight({"1", "2"}, true)];
      && UniqueTickets([Stale()]) && Reaches(cfg, Fresh([Stale()]), LosingOps(), Silenced(), passes)
      && "1" in Orphans(Silenced())
      && OrphanAlerts.Stays(passes, 2, "1") == 1 && OrphanAlerts.Alerts(Silenced().events, "1") == 0
  {
    var start, sight := Fresh([Stale()]), OrphanAlerts.Sight({"1", "2"}, false);
    Orphaned(cfg);
    PassesDo(cfg);
    OrphansAre(Silenced());
    TwoPasses("1", {"1", "2"});
    AlertsOfSilenced();
    assert [] + [sight] == [sight];
    assert Again().pass.Some? && Flagging().pass.Some?;
    hide Apply, Allowed, Reaches, Fresh, OrphanedWorld, Orphans, Stranding, Stale, Seeing, Aborted, Again, Flagging, Silenced;
    hide OrphanAlerts.Stays, OrphanAlerts.Alerts;
    var ops := Stranding();
    Begins(cfg, start, ops, OrphanedWorld([Stale()], {}, [TradeOpened(None)], None), [], Seeing());
    Goes(cfg, start, ops + [BeginOp(false)], Seeing(), [sight], ResolveOp(0, Raises), Seeing());
    Goes(cfg, start, ops + [BeginOp(false)] + [ResolveOp(0, Raises)], Seeing(), [sight], AbortOp, Aborted());
    ops := ops + [BeginOp(false)] + [ResolveOp(0, Raises)] + [AbortOp];
    Begins(cfg, start, ops, Aborted(), [sight], Again());
    Goes(cfg, start, ops + [BeginOp(false)], Again(), [sight] + [sight], ResolveOp(0, NoFault), Flagging());
    Ends(cfg, start, ops + [BeginOp(false)] + [ResolveOp(0, NoFault)], Flagging(), [sight], sight, Silenced());
  }

  lemma AlertsOfSilenced()
    ensures OrphanAlerts.Alerts(Silenced().events, "1") == 0
  {
    var events := Silenced().events;
    assert events[..1][..0] == [] && events[..1][0] == TradeOpened(None);
    assert OrphanAlerts.Alerts(events[..1], "1") == 0;
  }
}
