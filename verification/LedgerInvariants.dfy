/** What every operation of the execution service keeps in the two stores, over any run. */
module LedgerInvariants {
  import opened Prelude
  import opened PaperBroker
  import opened Ledger

  ghost predicate UniqueTickets(table: seq<TradeRecord>) {
    forall i, j :: 0 <= i < j < |table| && Ticketed(table[i]) ==> table[i].ticket != table[j].ticket
  }

  /** A record and its live position tell the same story; the stop is a matter of its own. */
  predicate Matches(r: TradeRecord, p: Position) {
    && r.status == Open
    && r.symbol == p.symbol && r.direction == p.direction && r.volume == p.volume && r.entry == p.entry
    && r.tp == p.tp
    && WholeCents(p.entry)
  }

  ghost predicate Agree(table: seq<TradeRecord>, positions: seq<Position>) {
    forall i, p :: 0 <= i < |table| && p in positions && table[i].ticket == p.ticket ==> Matches(table[i], p)
  }

  /** The record of a closed trade is still OPEN or booked with exactly that close. */
  predicate BookedAs(r: TradeRecord, c: ClosedTrade) {
    r.status == Open
    || (r.status == Closed && r.pnl == c.pnl && r.closePrice == Some(c.closePrice) && r.reason == Some(c.reason))
  }

  ghost predicate Booked(table: seq<TradeRecord>, closed: seq<ClosedTrade>) {
    forall i, c :: 0 <= i < |table| && c in closed && table[i].ticket == c.ticket ==> BookedAs(table[i], c)
  }

  /** A record that a pass under way found without a position has none. */
  ghost predicate PassOk(w: World) {
    w.pass.Some? ==>
      && w.pass.value.rows <= |w.table|
      && forall i, p | 0 <= i < w.pass.value.rows && Ticketed(w.table[i]) && p in w.book.positions ::
           w.table[i].ticket == p.ticket ==> p.ticket in w.pass.value.live
  }

  ghost predicate Inv(w: World, start: real) {
    && Distinct(w.book) && Issued(w.book, "") == 0
    && Balanced(w.book, start)
    && UniqueTickets(w.table)
    && Agree(w.table, w.book.positions)
    && Booked(w.table, w.book.closed)
    && PassOk(w)
  }

  // ---------- facts about the book ----------

  lemma LiveMember(ps: seq<Position>, p: Position)
    requires p in ps
    ensures Live(ps, p.ticket) >= 1
  {
    var i :| 0 <= i < |ps| && ps[i] == p;
    LiveWithout(ps, i, p.ticket);
  }

  lemma ClosedMember(cs: seq<ClosedTrade>, c: ClosedTrade)
    requires c in cs
    ensures Closings(cs, c.ticket) >= 1
  {
    var i :| 0 <= i < |cs| && cs[i] == c;
    ClosingsAt(cs, i);
  }

  lemma {:induction false} ClosedOnce(cs: seq<ClosedTrade>, c: ClosedTrade, d: ClosedTrade)
    requires c in cs && d in cs && c.ticket == d.ticket && Closings(cs, c.ticket) <= 1
    ensures c == d
  {
    var front, last := cs[..|cs| - 1], cs[|cs| - 1];
    if c != last && d != last {
      ClosedOnce(front, c, d);
    } else if c in front {
      ClosedMember(front, c);
    } else if d in front {
      ClosedMember(front, d);
    }
  }

  lemma {:induction false} LiveOnce(ps: seq<Position>, p: Position, q: Position)
    requires p in ps && q in ps && p.ticket == q.ticket && Live(ps, p.ticket) <= 1
    ensures p == q
  {
    var front, last := ps[..|ps| - 1], ps[|ps| - 1];
    if p != last && q != last {
      LiveOnce(front, p, q);
    } else if p in front {
      LiveMember(front, p);
    } else if q in front {
      LiveMember(front, q);
    }
  }

  lemma RemoveAtMember(ps: seq<Position>, i: nat, p: Position)
    requires i < |ps| && p in RemoveAt(ps, i)
    ensures p in ps
  {
    var rest := RemoveAt(ps, i);
    var k :| 0 <= k < |rest| && rest[k] == p;
    assert rest[k] == ps[if k < i then k else k + 1];
  }

  lemma {:induction false} RemainingMember(ps: seq<Position>, prices: Prices, p: Position)
    requires p in Remaining(ps, prices)
    ensures p in ps
  {
    hide ExitOf;
    if p in Remaining(ps[..|ps| - 1], prices) {
      RemainingMember(ps[..|ps| - 1], prices, p);
    }
  }

  lemma {:induction false} SettledMember(ps: seq<Position>, prices: Prices, contractSize: real, c: ClosedTrade)
    requires c in Settled(ps, prices, contractSize)
    ensures exists p :: p in ps && p.ticket == c.ticket
  {
    hide ExitOf, Pnl, Round2;
    if c in Settled(ps[..|ps| - 1], prices, contractSize) {
      SettledMember(ps[..|ps| - 1], prices, contractSize, c);
      var p :| p in ps[..|ps| - 1] && p.ticket == c.ticket;
      assert p in ps;
    } else {
      assert ps[|ps| - 1] in ps;
    }
  }

  /** Operations neither hand a used ticket to a new position nor move rows. */
  lemma PassStays(w: World, w': World)
    requires PassOk(w) && (w'.pass.Some? ==>
                             w.pass.Some? && w'.pass.value.rows == w.pass.value.rows && w'.pass.value.live == w.pass.value.live)
    requires |w.table| <= |w'.table| && forall i :: 0 <= i < |w.table| ==> w'.table[i].ticket == w.table[i].ticket
    requires forall p :: p in w'.book.positions ==>
      (exists q :: q in w.book.positions && q.ticket == p.ticket) || (forall i :: 0 <= i < |w.table| ==> w.table[i].ticket != p.ticket)
    ensures PassOk(w')
  {
  }

  // ---------- settlement ----------

  lemma SettleKeeps(w: World, c: ClosedTrade, start: real)
    requires Inv(w, start) && c in w.book.closed
    ensures Inv(Settle(w, c), start) && Settle(w, c).book == w.book
  {
    var f := FirstOpen(w.table, c.ticket);
    if f.Some? {
      var i, table' := f.value, Settle(w, c).table;
      ClosedMember(w.book.closed, c);
      assert Issued(w.book, c.ticket) <= 1;
      hide Distinct, Balanced;
      forall p | p in w.book.positions
        ensures p.ticket != c.ticket
      {
        LiveMember(w.book.positions, p);
      }
      forall d | d in w.book.closed && d.ticket == c.ticket
        ensures d == c
      {
        ClosedOnce(w.book.closed, c, d);
      }
      assert Agree(table', w.book.positions);
      assert Booked(table', w.book.closed);
      PassStays(w, Settle(w, c));
    }
  }

  lemma CloseKeepsInv(w: World, p: nat, price: real, reason: CloseReason, start: real)
    requires Inv(w, start) && p < |w.book.positions|
    ensures Inv(AfterCloseAt(w, p, price, reason), start)
  {
    var b := AfterClose(w.book, p, price, reason);
    var pos, trade := w.book.positions[p], TradeOf(w.book.positions[p], price, reason, w.book.contractSize);
    assert pos in w.book.positions && trade.ticket == pos.ticket;
    forall t
      ensures Issued(b, t) == Issued(w.book, t)
    {
      CloseKeeps(w.book, p, price, reason, start, t);
    }
    CloseKeeps(w.book, p, price, reason, start, "");
    hide TradeOf, Issued, RemoveAt;
    forall i, q | 0 <= i < |w.table| && q in b.positions && w.table[i].ticket == q.ticket
      ensures Matches(w.table[i], q)
    {
      RemoveAtMember(w.book.positions, p, q);
    }
    forall q | q in b.positions
      ensures q in w.book.positions
    {
      RemoveAtMember(w.book.positions, p, q);
    }
    PassStays(w, w.(book := b));
    forall i, c | 0 <= i < |w.table| && c in b.closed && w.table[i].ticket == c.ticket
      ensures BookedAs(w.table[i], c)
    {
      if c == trade {
        assert Matches(w.table[i], pos);
      } else {
        assert c in w.book.closed;
      }
    }
  }

  lemma CloseAndSettleKeeps(w: World, p: nat, price: real, reason: CloseReason, fault: Fault, start: real)
    requires Inv(w, start) && p < |w.book.positions|
    ensures Inv(CloseAndSettle(w, p, price, reason, fault), start)
  {
    hide Inv, TradeOf;
    CloseKeepsInv(w, p, price, reason, start);
    SettleKeeps(AfterCloseAt(w, p, price, reason), TradeOf(w.book.positions[p], price, reason, w.book.contractSize), start);
  }

  lemma ExitsKeepInv(w: World, start: real)
    requires Inv(w, start)
    ensures Inv(ExitsAt(w), start)
  {
    var b := AfterExits(w.book, w.prices);
    forall t
      ensures Issued(b, t) == Issued(w.book, t)
    {
      ExitsKeep(w.book, w.prices, start, t);
    }
    ExitsKeep(w.book, w.prices, start, "");
    var settled := Settled(w.book.positions, w.prices, w.book.contractSize);
    hide Issued, Settled, Remaining;
    forall i, q | 0 <= i < |w.table| && q in b.positions && w.table[i].ticket == q.ticket
      ensures Matches(w.table[i], q)
    {
      RemainingMember(w.book.positions, w.prices, q);
    }
    forall q | q in b.positions
      ensures q in w.book.positions
    {
      RemainingMember(w.book.positions, w.prices, q);
    }
    PassStays(w, w.(book := b));
    forall i, c | 0 <= i < |w.table| && c in b.closed && w.table[i].ticket == c.ticket
      ensures BookedAs(w.table[i], c)
    {
      if c !in w.book.closed {
        SettledMember(w.book.positions, w.prices, w.book.contractSize, c);
        var p :| p in w.book.positions && p.ticket == c.ticket;
        assert Matches(w.table[i], p);
      }
    }
  }

  // ---------- opening ----------

  lemma OpenKeeps(w: World, o: Order, t: Ticket, px: real, start: real)
    requires Inv(w, start) && FreshTicket(w, t)
    ensures Inv(w.(book := WithPosition(w.book, PositionFor(o, t, px))), start)
  {
    var p := PositionFor(o, t, px);
    var b, ps := WithPosition(w.book, p), w.book.positions + [p];
    forall u
      ensures Issued(b, u) == Issued(w.book, u) + (if u == t then 1 else 0) && Issued(b, u) <= 1
    {
      LiveSnoc(w.book.positions, p, u);
      assert Issued(w.book, u) <= 1;
    }
    assert forall q :: q in ps ==> q in w.book.positions || q == p;
  }

  lemma RecordKeeps(w: World, o: Order, t: Ticket, px: real, start: real)
    requires Inv(w, start) && FreshTicket(w, t)
    ensures var p := PositionFor(o, t, px);
      Inv(w.(book := WithPosition(w.book, p), table := w.table + [RecordFor(o, p)]), start)
  {
    OpenKeeps(w, o, t, px, start);
    var p := PositionFor(o, t, px);
    var ps, r := w.book.positions + [p], RecordFor(o, p);
    var table := w.table + [r];
    Round2IsWholeCents(px);
    assert Matches(r, p);
    hide Round2, RecordFor, PositionFor;
    forall q | q in ps && q.ticket == t
      ensures q == p
    {
      if q in w.book.positions {
        LiveMember(w.book.positions, q);
      }
    }
    assert Agree(table, ps) by {
      assert Agree(w.table, ps);
    }
    forall c | c in w.book.closed
      ensures c.ticket != t
    {
      ClosedMember(w.book.closed, c);
    }
    assert Booked(table, w.book.closed);
    assert UniqueTickets(table);
  }

  lemma ApproveKeeps(cfg: Config, w: World, o: Order, t1: Ticket, t2: Ticket, insertable: bool, start: real)
    requires Inv(w, start) && Allowed(w, ApproveOp(o, t1, t2, insertable))
    ensures Inv(Approve(cfg, w, o, t1, t2, insertable), start)
  {
    hide OpenCount, LastPrice, PositionFor, RecordFor;
    var px := LastPrice(w.prices, o.symbol);
    var w' := Approve(cfg, w, o, t1, t2, insertable);
    if w'.book == w.book {
      SameStores(w, w', start);
    } else if insertable {
      RecordKeeps(w, o, t1, px.value, start);
      var p := PositionFor(o, t1, px.value);
      SameStores(w.(book := WithPosition(w.book, p), table := w.table + [RecordFor(o, p)]), w', start);
    } else {
      OpenKeeps(w, o, t1, px.value, start);
      var w1 := w.(book := WithPosition(w.book, PositionFor(o, t1, px.value)));
      StillFresh(w, o, t1, t2, px.value);
      OpenKeeps(w1, o, t2, px.value, start);
      SameStores(w1.(book := WithPosition(w1.book, PositionFor(o, t2, px.value))), w', start);
    }
  }

  lemma StillFresh(w: World, o: Order, t1: Ticket, t2: Ticket, px: real)
    requires FreshTicket(w, t2) && t1 != t2
    ensures FreshTicket(w.(book := WithPosition(w.book, PositionFor(o, t1, px))), t2)
  {
    LiveSnoc(w.book.positions, PositionFor(o, t1, px), t2);
  }

  lemma SameStores(w: World, w': World, start: real)
    requires Inv(w, start) && w'.book == w.book && w'.table == w.table && (w'.pass == w.pass || w'.pass == None)
    ensures Inv(w', start)
  {
  }

  // ---------- reconciliation ----------

  lemma TicketSetIff(ps: seq<Position>, t: Ticket)
    ensures t in TicketSet(ps) <==> Live(ps, t) > 0
  {
    if Live(ps, t) > 0 {
      assert ps[Find(ps, t).value] in ps;
    }
    if p :| p in ps && p.ticket == t {
      LiveMember(ps, p);
    }
  }

  lemma BeginKeeps(w: World, gate: bool, start: real)
    requires Inv(w, start)
    ensures Inv(BeginPass(w, gate), start)
  {
    hide Distinct, Balanced, Orphans, OrphanIssues;
  }

  lemma HasNoPosition(w: World, i: nat)
    requires PassOk(w) && Resolves(w, i)
    ensures forall p :: p in w.book.positions ==> p.ticket != w.table[i].ticket
  {
  }

  /** Flagging a record without a position and without a close keeps the books. */
  lemma ResolveKeeps(w: World, i: nat, start: real)
    requires Inv(w, start)
    ensures Inv(ResolveRecord(w, i), start)
  {
    if Resolves(w, i) {
      var t := w.table[i].ticket;
      var f := FirstClosed(w.book.closed, t);
      match f
      case Some(c) => SettleKeeps(w, c, start);
      case None =>
        var w' := ResolveRecord(w, i);
        HasNoPosition(w, i);
        hide Distinct, Balanced;
        assert Booked(w'.table, w.book.closed);
        assert Agree(w'.table, w.book.positions);
        PassStays(w, w');
    }
  }

  // ---------- management ----------

  lemma MovedPositions(b: Book, p: nat, sl: real)
    requires p < |b.positions|
    ensures forall q :: q in WithStop(b, p, sl).positions ==> exists o :: o in b.positions && q == o.(sl := q.sl)
  {
    forall q | q in WithStop(b, p, sl).positions
      ensures exists o :: o in b.positions && q == o.(sl := q.sl)
    {
      var k :| 0 <= k < |WithStop(b, p, sl).positions| && WithStop(b, p, sl).positions[k] == q;
      assert b.positions[k] in b.positions;
    }
  }

  lemma MoveStopKeeps(w: World, i: nat, p: nat, sl: real, breakeven: bool, fault: Fault, start: real)
    requires Inv(w, start) && i < |w.table| && p < |w.book.positions| && w.table[i].ticket == w.book.positions[p].ticket
    ensures Inv(MoveStop(w, i, p, sl, breakeven, fault), start)
  {
    var w' := MoveStop(w, i, p, sl, breakeven, fault);
    forall t
      ensures Issued(w'.book, t) == Issued(w.book, t)
    {
      StopKeeps(w.book, p, sl, t);
    }
    MovedPositions(w.book, p, sl);
    assert w'.book.closed == w.book.closed && w'.book.balance == w.book.balance;
    assert |w'.table| == |w.table| && forall j :: 0 <= j < |w.table| ==>
      w'.table[j] == w.table[j].(sl := w'.table[j].sl, breakevenDone := w'.table[j].breakevenDone);
    assert w'.book.positions == WithStop(w.book, p, sl).positions && w'.pass == w.pass;
    hide Issued, MoveStop, WithStop;
    SamePairs(w, w');
  }

  /** Rows and positions that change in their stops only stay in agreement. */
  lemma SamePairs(w: World, w': World)
    requires Agree(w.table, w.book.positions) && Booked(w.table, w.book.closed) && UniqueTickets(w.table) && PassOk(w)
    requires w'.book.closed == w.book.closed && w'.pass == w.pass && |w'.table| == |w.table|
    requires forall j :: 0 <= j < |w.table| ==>
      w'.table[j] == w.table[j].(sl := w'.table[j].sl, breakevenDone := w'.table[j].breakevenDone)
    requires forall q :: q in w'.book.positions ==> exists o :: o in w.book.positions && q == o.(sl := q.sl)
    ensures Agree(w'.table, w'.book.positions) && Booked(w'.table, w'.book.closed) && UniqueTickets(w'.table) && PassOk(w')
  {
    forall j, q | 0 <= j < |w'.table| && q in w'.book.positions && w'.table[j].ticket == q.ticket
      ensures Matches(w'.table[j], q)
    {
      var o :| o in w.book.positions && q == o.(sl := q.sl);
      assert Matches(w.table[j], o);
    }
    forall j, c | 0 <= j < |w'.table| && c in w'.book.closed && w'.table[j].ticket == c.ticket
      ensures BookedAs(w'.table[j], c)
    {
      assert BookedAs(w.table[j], c);
    }
    PassStays(w, w');
  }

  lemma {:induction false} PositionOnce(ps: seq<Position>, i: nat, j: nat)
    requires i < |ps| && j < |ps| && ps[i].ticket == ps[j].ticket && Live(ps, ps[i].ticket) <= 1
    ensures i == j
  {
    FindUnique(ps, i);
    FindUnique(ps, j);
  }

  lemma ManageIctRowKeeps(cfg: Config, w: World, i: nat, bosClose: Option<real>, fault: Fault, start: real)
    requires Inv(w, start)
    ensures Inv(ManageIctRow(cfg, w, i, bosClose, fault), start)
  {
    hide Inv, BreakevenDue, Round2, Risk, CloseAndSettle, MoveStop;
    if i < |w.table| && Find(w.book.positions, w.table[i].ticket).Some? {
      var r, p := w.table[i], Find(w.book.positions, w.table[i].ticket).value;
      MoveStopKeeps(w, i, p, Round2(r.entry), true, fault, start);
      var w1 := MoveStop(w, i, p, Round2(r.entry), true, fault);
      SamePositionCount(w, i, p, Round2(r.entry), true, fault);
      if bosClose.Some? {
        CloseAndSettleKeeps(w, p, bosClose.value, OppositeBos, fault, start);
        CloseAndSettleKeeps(w1, p, bosClose.value, OppositeBos, fault, start);
      }
    }
  }

  lemma SamePositionCount(w: World, i: nat, p: nat, sl: real, breakeven: bool, fault: Fault)
    requires i < |w.table| && p < |w.book.positions|
    ensures |MoveStop(w, i, p, sl, breakeven, fault).book.positions| == |w.book.positions|
  {
  }

  lemma ManageLineRowKeeps(cfg: Config, w: World, i: nat, view: Option<LineView>, fault: Fault, start: real)
    requires Inv(w, start)
    ensures Inv(ManageLineRow(cfg, w, i, view, fault), start)
  {
    hide Inv, TrailCandidate, CloseAndSettle, MoveStop, Tightens;
    if i < |w.table| && ManagedLine(cfg, w, i, view) {
      var r, m, p := w.table[i], ManagementOf(cfg, w.table[i]), Find(w.book.positions, w.table[i].ticket).value;
      var v := view.value;
      CloseAndSettleKeeps(w, p, v.close, SafetyLine, fault, start);
      MoveStopKeeps(w, i, p, TrailCandidate(r.direction, v.safety.value, v.atr, m.slBufferAtr), false, fault, start);
    }
  }

  // ---------- runs ----------

  lemma ApplyKeeps(cfg: Config, w: World, op: Op, start: real)
    requires Inv(w, start) && Allowed(w, op)
    ensures Inv(Apply(cfg, w, op), start)
  {
    match op
    case QuoteOp(_, _) => SameStores(w, Apply(cfg, w, op), start);
    case ApproveOp(o, t1, t2, insertable) => ApproveKeeps(cfg, w, o, t1, t2, insertable, start);
    case BeginOp(gate) => BeginKeeps(w, gate, start);
    case ResolveOp(i, _) => ResolveKeeps(w, i, start);
    case EndOp => SameStores(w, Apply(cfg, w, op), start);
    case AbortOp => SameStores(w, Apply(cfg, w, op), start);
    case ExitsOp => ExitsKeepInv(w, start);
    case SettleOp(k, _) =>
      if k < |w.book.closed| {
        SettleKeeps(w, w.book.closed[k], start);
      }
    case IctOp(i, bosClose, fault) => ManageIctRowKeeps(cfg, w, i, bosClose, fault, start);
    case LineOp(i, view, fault) => ManageLineRowKeeps(cfg, w, i, view, fault, start);
    case EquityOp => SameStores(w, Apply(cfg, w, op), start);
  }

  /** Every reachable state keeps the books, at each point where a tick may be interrupted or abort:
      tickets are live or closed once, the balance is the starting balance plus the closed profits, a
      live position's record is OPEN and agrees with it, and a closed trade's record is OPEN or booked
      with exactly that close. */
  lemma {:induction false} RunKeeps(cfg: Config, w: World, ops: seq<Op>, start: real)
    requires Inv(w, start) && AllowedRun(cfg, w, ops)
    ensures Inv(Run(cfg, w, ops), start)
  {
    hide Inv, Apply;
    if ops != [] {
      RunKeeps(cfg, w, ops[..|ops| - 1], start);
      ApplyKeeps(cfg, Run(cfg, w, ops[..|ops| - 1]), ops[|ops| - 1], start);
    }
  }

  /** The world of a process that starts with a new broker and whatever rows earlier ones left. */
  function StartWorld(contractSize: real, start: real, table: seq<TradeRecord>): World {
    World(Book(contractSize, start, [], []), map[], table, {}, {}, [], None)
  }

  lemma StartKeeps(contractSize: real, start: real, table: seq<TradeRecord>)
    requires UniqueTickets(table)
    ensures Inv(StartWorld(contractSize, start, table), start)
  {
  }
}
