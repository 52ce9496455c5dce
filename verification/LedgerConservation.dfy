/** Where the broker's profit went: booked, still pending, or earned by orphans. */
module LedgerConservation {
  import opened Prelude
  import opened PaperBroker
  import opened Ledger
  import opened LedgerInvariants
  import opened Ticks
  import Reconciliation

  predicate HasRow(table: seq<TradeRecord>, ticket: Ticket, status: Status) {
    exists i :: 0 <= i < |table| && table[i].ticket == ticket && table[i].status == status
  }

  /** The profit of the closed trades whose record has the status. */
  function PnlWith(closed: seq<ClosedTrade>, table: seq<TradeRecord>, status: Status): real {
    if closed == [] then 0.0
    else
      var c := closed[|closed| - 1];
      PnlWith(closed[..|closed| - 1], table, status) + (if HasRow(table, c.ticket, status) then c.pnl else 0.0)
  }

  predicate Recorded(table: seq<TradeRecord>, ticket: Ticket) {
    exists i :: 0 <= i < |table| && table[i].ticket == ticket
  }

  /** The profit of the closed trades without any record. */
  function OrphanPnl(closed: seq<ClosedTrade>, table: seq<TradeRecord>): real {
    if closed == [] then 0.0
    else
      var c := closed[|closed| - 1];
      OrphanPnl(closed[..|closed| - 1], table) + (if Recorded(table, c.ticket) then 0.0 else c.pnl)
  }

  /** What the table itself reports: the profit of CLOSED records whose ticket this broker closed. */
  function BookedPnl(table: seq<TradeRecord>, closed: seq<ClosedTrade>): real {
    if table == [] then 0.0
    else
      var r := table[|table| - 1];
      BookedPnl(table[..|table| - 1], closed)
      + (if r.status == Closed && Closings(closed, r.ticket) > 0 then r.pnl else 0.0)
  }

  lemma RowOf(table: seq<TradeRecord>, closed: seq<ClosedTrade>, c: ClosedTrade)
    requires Booked(table, closed) && UniqueTickets(table) && c in closed && c.ticket != ""
    ensures Recorded(table, c.ticket) <==> HasRow(table, c.ticket, Open) || HasRow(table, c.ticket, Closed)
    ensures !(HasRow(table, c.ticket, Open) && HasRow(table, c.ticket, Closed))
  {
    if i :| 0 <= i < |table| && table[i].ticket == c.ticket {
      assert BookedAs(table[i], c);
      assert Ticketed(table[i]);
    }
  }

  /** Each closed trade's profit falls into exactly one class. */
  lemma {:induction false} ProfitSplits(table: seq<TradeRecord>, closed: seq<ClosedTrade>, all: seq<ClosedTrade>)
    requires Booked(table, all) && UniqueTickets(table) && closed <= all
    requires forall c :: c in all ==> c.ticket != ""
    ensures SumPnl(closed) == PnlWith(closed, table, Closed) + PnlWith(closed, table, Open) + OrphanPnl(closed, table)
  {
    hide Recorded, HasRow, Booked, UniqueTickets;
    if closed != [] {
      ProfitSplits(table, closed[..|closed| - 1], all);
      assert closed[|closed| - 1] == all[|closed| - 1];
      RowOf(table, all, closed[|closed| - 1]);
    }
  }

  /** Adding a CLOSED row to the table adds the profit of the one trade it books. */
  lemma {:induction false} AddRow(closed: seq<ClosedTrade>, table: seq<TradeRecord>, r: TradeRecord)
    requires !Recorded(table, r.ticket) && Closings(closed, r.ticket) <= 1
    requires r.status == Closed ==> forall c :: c in closed && c.ticket == r.ticket ==> r.pnl == c.pnl
    ensures PnlWith(closed, table + [r], Closed)
         == PnlWith(closed, table, Closed) + (if r.status == Closed && Closings(closed, r.ticket) > 0 then r.pnl else 0.0)
  {
    if closed != [] {
      var front, c := closed[..|closed| - 1], closed[|closed| - 1];
      AddRow(front, table, r);
      HasRowSnoc(table, r, c.ticket);
    }
  }

  lemma HasRowSnoc(table: seq<TradeRecord>, r: TradeRecord, ticket: Ticket)
    ensures HasRow(table + [r], ticket, Closed) <==> HasRow(table, ticket, Closed) || (r.ticket == ticket && r.status == Closed)
    ensures HasRow(table, ticket, Closed) ==> Recorded(table, ticket)
  {
    var all := table + [r];
    if i :| 0 <= i < |table| && table[i].ticket == ticket && table[i].status == Closed {
      assert all[i] == table[i];
    }
    assert all[|table|] == r;
  }

  lemma {:induction false} NothingBooked(closed: seq<ClosedTrade>)
    ensures PnlWith(closed, [], Closed) == 0.0
  {
    if closed != [] {
      NothingBooked(closed[..|closed| - 1]);
    }
  }

  /** The table books each close of this broker exactly once, with its own profit. */
  lemma {:induction false} BookedOnce(table: seq<TradeRecord>, closed: seq<ClosedTrade>)
    requires Booked(table, closed) && UniqueTickets(table)
    requires (forall t :: Closings(closed, t) <= 1) && Closings(closed, "") == 0
    ensures BookedPnl(table, closed) == PnlWith(closed, table, Closed)
  {
    if table == [] {
      NothingBooked(closed);
    } else {
      var front, r := table[..|table| - 1], table[|table| - 1];
      BookedOnce(front, closed);
      assert table == front + [r];
      if r.ticket == "" {
        BlankRow(closed, front, r);
      } else {
        assert forall c :: c in closed && c.ticket == r.ticket ==> BookedAs(r, c);
        assert !Recorded(front, r.ticket);
        AddRow(closed, front, r);
      }
    }
  }

  lemma {:induction false} BlankRow(closed: seq<ClosedTrade>, table: seq<TradeRecord>, r: TradeRecord)
    requires r.ticket == "" && Closings(closed, "") == 0
    ensures PnlWith(closed, table + [r], Closed) == PnlWith(closed, table, Closed)
  {
    if closed != [] {
      BlankRow(closed[..|closed| - 1], table, r);
      HasRowSnoc(table, r, closed[|closed| - 1].ticket);
    }
  }

  /** Ledger conservation in every reachable state: the balance differs from the starting balance by
      the profit booked in the table for this broker's closes, plus the profit of closes whose record
      is still OPEN, plus the profit of orphans; nothing is booked twice or lost. */
  lemma LedgerConserved(cfg: Config, w: World, ops: seq<Op>, start: real)
    requires Inv(w, start) && AllowedRun(cfg, w, ops)
    ensures var end := Run(cfg, w, ops);
      end.book.balance - start
      == BookedPnl(end.table, end.book.closed) + PnlWith(end.book.closed, end.table, Open)
         + OrphanPnl(end.book.closed, end.table)
  {
    RunKeeps(cfg, w, ops, start);
    var end := Run(cfg, w, ops);
    forall t
      ensures Closings(end.book.closed, t) <= 1
    {
      assert Issued(end.book, t) <= 1;
    }
    forall c | c in end.book.closed
      ensures c.ticket != ""
    {
      ClosedMember(end.book.closed, c);
    }
    ProfitSplits(end.table, end.book.closed, end.book.closed);
    BookedOnce(end.table, end.book.closed);
  }

  /** A finished pass leaves no close pending, whatever was handled while it waited: the balance is
      then the booked profit plus that of orphans. */
  lemma FinishedPassBooksAll(cfg: Config, w: World, gate: bool, slots: seq<Slot>, start: real)
    requires Inv(w, start) && Interruptions(slots) && !Aborts(slots, |w.table|)
    requires AllowedRun(cfg, w, PassOps(gate, |w.table|, slots))
    ensures var end := Run(cfg, w, PassOps(gate, |w.table|, slots));
      && PnlWith(end.book.closed, end.table, Open) == 0.0
      && end.book.balance - start == BookedPnl(end.table, end.book.closed) + OrphanPnl(end.book.closed, end.table)
  {
    hide PassOps, Run, AllowedRun, Aborts, Interruptions;
    var end := Run(cfg, w, PassOps(gate, |w.table|, slots));
    RunKeeps(cfg, w, PassOps(gate, |w.table|, slots), start);
    LedgerConserved(cfg, w, PassOps(gate, |w.table|, slots), start);
    forall c | c in end.book.closed
      ensures !HasRow(end.table, c.ticket, Open)
    {
      ClosedMember(end.book.closed, c);
      assert Issued(end.book, c.ticket) <= 1 && Issued(end.book, "") == 0;
      if i :| 0 <= i < |end.table| && end.table[i].ticket == c.ticket && end.table[i].status == Open {
        Reconciliation.FinishedPassResolves(cfg, w, gate, slots, start, end.table[i]);
        TicketSetIff(end.book.positions, c.ticket);
        assert false;
      }
    }
    NonePending(end.book.closed, end.table);
  }

  lemma {:induction false} NonePending(closed: seq<ClosedTrade>, table: seq<TradeRecord>)
    requires forall c :: c in closed ==> !HasRow(table, c.ticket, Open)
    ensures PnlWith(closed, table, Open) == 0.0
  {
    hide HasRow;
    if closed != [] {
      NonePending(closed[..|closed| - 1], table);
    }
  }
}
