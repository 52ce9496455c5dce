/** What a reconciliation pass achieves, undisturbed and with quotes and signals in between. */
module Reconciliation {
  import opened Prelude
  import opened PaperBroker
  import opened Ledger
  import opened LedgerInvariants
  import opened Ticks

  /** After one pass every OPEN ticketed record has a broker position; a record that had none is
      CLOSED exactly as the history has it, or, without history, flagged for manual review with its
      figures untouched; every other record is unchanged. */
  lemma ReconciledTable(w: World, gate: bool, i: nat)
    requires i < |w.table|
    ensures var r, s := w.table[i], Reconcile(w, gate).table[i];
      && |Reconcile(w, gate).table| == |w.table|
      && (s.status == Open && Ticketed(s) ==> Live(w.book.positions, s.ticket) > 0)
      && (if r.status == Open && Ticketed(r) && Live(w.book.positions, r.ticket) == 0 then
            if Closings(w.book.closed, r.ticket) > 0
            then exists c :: c in w.book.closed && c.ticket == r.ticket && s == SettleRow(r, c)
            else s == r.(status := ManualReview)
          else s == r)
  {
    hide Unexplained, LateCloses, OrphanIssues, MissingIssues;
    var r := w.table[i];
    TicketSetIff(w.book.positions, r.ticket);
    var f := FirstClosed(w.book.closed, r.ticket);
    if f.Some? {
      ClosedMember(w.book.closed, f.value);
    } else {
      NeverClosed(w.book.closed, r.ticket);
    }
  }

  lemma {:induction false} NeverClosed(cs: seq<ClosedTrade>, t: Ticket)
    requires forall c :: c in cs ==> c.ticket != t
    ensures Closings(cs, t) == 0
  {
    if cs != [] {
      NeverClosed(cs[..|cs| - 1], t);
    }
  }

  lemma {:induction false} NothingMissing(table: seq<TradeRecord>, live: set<Ticket>, closed: seq<ClosedTrade>)
    requires forall r :: r in table ==> !IsMissing(r, live)
    ensures Unexplained(table, live, closed) == [] && LateCloses(table, live, closed) == []
    ensures ResolveTable(table, live, closed) == table
  {
    hide FirstClosed;
    if table != [] {
      NothingMissing(table[..|table| - 1], live, closed);
    }
  }

  lemma ResolvedHasNoneMissing(table: seq<TradeRecord>, live: set<Ticket>, closed: seq<ClosedTrade>)
    ensures forall r :: r in ResolveTable(table, live, closed) ==> !IsMissing(r, live)
  {
    hide FirstClosed;
  }

  lemma OrphansStay(w: World, gate: bool)
    ensures Orphans(Reconcile(w, gate)) == Orphans(w)
  {
    hide Unexplained, LateCloses, OrphanIssues, MissingIssues, FirstClosed;
    var live := TicketSet(w.book.positions);
    var table := ResolveTable(w.table, live, w.book.closed);
    forall t | t in live
      ensures t in OpenTickets(table) <==> t in OpenTickets(w.table)
    {
      if t in OpenTickets(w.table) {
        var r :| r in w.table && r.status == Open && Ticketed(r) && r.ticket == t;
        var i :| 0 <= i < |w.table| && w.table[i] == r;
        assert table[i] == r;
      }
      if t in OpenTickets(table) {
        var r :| r in table && r.status == Open && Ticketed(r) && r.ticket == t;
        var i :| 0 <= i < |table| && table[i] == r;
        assert w.table[i] == r;
      }
    }
  }

  /** A second pass on an unchanged broker changes nothing and emits nothing, whether or not it
      records for the startup gate what an earlier gated pass already recorded. */
  lemma ReconcileIdempotent(w: World, first: bool, second: bool)
    requires second ==> first
    ensures Reconcile(Reconcile(w, first), second) == Reconcile(w, first)
  {
    var w1 := Reconcile(w, first);
    var live := TicketSet(w.book.positions);
    OrphansStay(w, first);
    ResolvedHasNoneMissing(w.table, live, w.book.closed);
    NothingMissing(w1.table, live, w.book.closed);
    hide Unexplained, LateCloses, ResolveTable, Orphans;
    assert w1.reported == Orphans(w1) == Orphans(w);
    assert Orphans(w1) - w1.reported == {};
    assert w1.events + [] + [] == w1.events;
    if second {
      assert OrphanIssues(Orphans(w1)) <= w1.issues && MissingIssues([]) == {};
    }
  }

  // ---------- the pass step by step ----------

  lemma OpenRowIsFirst(table: seq<TradeRecord>, i: nat)
    requires UniqueTickets(table) && i < |table| && table[i].status == Open && Ticketed(table[i])
    ensures FirstOpen(table, table[i].ticket) == Some(i)
  {
    var f := FirstOpen(table, table[i].ticket);
    assert IsOpenFor(table[i], table[i].ticket);
  }

  lemma ResolveStep(rows: seq<TradeRecord>, i: nat, live: set<Ticket>, closed: seq<ClosedTrade>)
    requires i < |rows|
    ensures Unexplained(rows[..i + 1], live, closed) == Unexplained(rows[..i], live, closed) + Flagged(rows[i], live, closed)
    ensures LateCloses(rows[..i + 1], live, closed) == LateCloses(rows[..i], live, closed) + ResolvedEvents(rows[i], live, closed)
  {
    hide FirstClosed;
    assert rows[..i + 1][..i] == rows[..i];
  }

  /** A pass on `w` after its first `n` records, when nothing came in between. */
  function ResolvedTo(w: World, gate: bool, n: nat): World
    requires n <= |w.table|
  {
    var live, closed := TicketSet(w.book.positions), w.book.closed;
    var begun, missing := BeginPass(w, gate), Unexplained(w.table[..n], live, closed);
    begun.(table := ResolveTable(w.table, live, closed)[..n] + w.table[n..], pass := Some(begun.pass.value.(missing := missing)),
           issues := if gate then begun.issues + MissingIssues(missing) else begun.issues,
           events := w.events + LateCloses(w.table[..n], live, closed))
  }

  lemma ResolvedTableStep(w: World, n: nat)
    requires n < |w.table|
    ensures var live, closed := TicketSet(w.book.positions), w.book.closed;
      var rows := ResolveTable(w.table, live, closed);
      rows[..n + 1] + w.table[n + 1..] == (rows[..n] + w.table[n..])[n := ResolveRow(w.table[n], live, closed)]
  {
    hide ResolveRow;
  }

  lemma MissingIssuesConcat(a: seq<Ticket>, b: seq<Ticket>)
    ensures MissingIssues(a + b) == MissingIssues(a) + MissingIssues(b)
  {
  }

  /** What resolving row `n` adds to the pass. */
  lemma NextResolved(w: World, gate: bool, n: nat)
    requires n < |w.table|
    ensures var live, closed, now := TicketSet(w.book.positions), w.book.closed, ResolvedTo(w, gate, n);
      var flagged := Flagged(w.table[n], live, closed);
      && |now.table| == |w.table| && now.table[n] == w.table[n]
      && ResolvedTo(w, gate, n + 1)
         == now.(table := now.table[n := ResolveRow(w.table[n], live, closed)],
                 pass := Some(now.pass.value.(missing := now.pass.value.missing + flagged)),
                 issues := if gate then now.issues + MissingIssues(flagged) else now.issues,
                 events := now.events + ResolvedEvents(w.table[n], live, closed))
  {
    var live, closed, r := TicketSet(w.book.positions), w.book.closed, w.table[n];
    ResolveStep(w.table, n, live, closed);
    ResolvedTableStep(w, n);
    hide Flagged, ResolvedEvents, Unexplained, LateCloses, MissingIssues, OrphanIssues, ResolveTable, ResolveRow, Orphans, TicketSet;
    MissingIssuesConcat(Unexplained(w.table[..n], live, closed), Flagged(r, live, closed));
    assert w.events + (LateCloses(w.table[..n], live, closed) + ResolvedEvents(r, live, closed))
        == w.events + LateCloses(w.table[..n], live, closed) + ResolvedEvents(r, live, closed);
  }

  lemma ResolvedToStep(w: World, gate: bool, n: nat)
    requires n < |w.table| && UniqueTickets(w.table)
    ensures ResolveRecord(ResolvedTo(w, gate, n), n) == ResolvedTo(w, gate, n + 1)
  {
    var live, closed, r, now := TicketSet(w.book.positions), w.book.closed, w.table[n], ResolvedTo(w, gate, n);
    NextResolved(w, gate, n);
    ResolvedKeepsTickets(w, n);
    assert now.pass == Some(now.pass.value) && now.pass.value.live == live && now.pass.value.gate == gate && now.book == w.book;
    assert now.pass.value.rows == |w.table| && UniqueTickets(now.table);
    hide ResolvedTo;
    ResolvesRow(now, n);
  }

  /** Resolving a row of a table with unique tickets, by what it flags and emits. */
  lemma ResolvesRow(w: World, n: nat)
    requires w.pass.Some? && n < w.pass.value.rows <= |w.table| && UniqueTickets(w.table)
    ensures var pass, r, closed := w.pass.value, w.table[n], w.book.closed;
      var flagged := Flagged(r, pass.live, closed);
      ResolveRecord(w, n)
      == w.(table := w.table[n := ResolveRow(r, pass.live, closed)], pass := Some(pass.(missing := pass.missing + flagged)),
            issues := if pass.gate then w.issues + MissingIssues(flagged) else w.issues,
            events := w.events + ResolvedEvents(r, pass.live, closed))
  {
    var pass, r := w.pass.value, w.table[n];
    if IsMissing(r, pass.live) {
      OpenRowIsFirst(w.table, n);
    }
    hide FirstClosed, FirstOpen, SettleRow, UniqueTickets;
    assert MissingIssues([]) == {} && MissingIssues([r.ticket]) == {MissingIssue(r.ticket)};
    assert pass.missing + [] == pass.missing && w.events + [] == w.events && w.table[n := r] == w.table;
  }

  lemma ResolvedKeepsTickets(w: World, n: nat)
    requires n <= |w.table| && UniqueTickets(w.table)
    ensures UniqueTickets(ResolveTable(w.table, TicketSet(w.book.positions), w.book.closed)[..n] + w.table[n..])
  {
    hide FirstClosed;
    var rows := ResolveTable(w.table, TicketSet(w.book.positions), w.book.closed);
    assert forall i :: 0 <= i < |rows| ==> rows[i].ticket == w.table[i].ticket;
    var t := rows[..n] + w.table[n..];
    assert forall i :: 0 <= i < |t| ==> t[i].ticket == w.table[i].ticket;
  }

  lemma {:induction false} StepsResolve(cfg: Config, w: World, gate: bool, n: nat)
    requires n <= |w.table| && UniqueTickets(w.table)
    ensures Run(cfg, BeginPass(w, gate), Iterations(ResolveSteps(|w.table|, []), [], n)) == ResolvedTo(w, gate, n)
    ensures !Aborts([], n)
  {
    hide ResolvedTo, BeginPass, Apply, Iterations, Aborts, Run, ResolveRecord;
    NoIterations(cfg, BeginPass(w, gate), ResolveSteps(|w.table|, []), []);
    if n == 0 {
      NothingResolved(w, gate);
    } else {
      StepsResolve(cfg, w, gate, n - 1);
      var steps := ResolveSteps(|w.table|, []);
      var done := Iterations(steps, [], n - 1);
      IterationIs(steps, [], n - 1);
      assert done + [steps[n - 1]] + [] == done + [steps[n - 1]];
      RunStep(cfg, BeginPass(w, gate), done, steps[n - 1]);
      ResolveIs(cfg, ResolvedTo(w, gate, n - 1), n - 1);
      ResolvedToStep(w, gate, n - 1);
    }
  }

  lemma ResolveIs(cfg: Config, w: World, i: nat)
    ensures Apply(cfg, w, ResolveOp(i, NoFault)) == ResolveRecord(w, i)
  {
    hide ResolveRecord;
  }

  lemma NothingResolved(w: World, gate: bool)
    ensures ResolvedTo(w, gate, 0) == BeginPass(w, gate)
  {
    hide Orphans, OrphanIssues, TicketSet;
    var live, closed := TicketSet(w.book.positions), w.book.closed;
    assert w.table[..0] == [] && MissingIssues([]) == {};
    assert ResolveTable(w.table, live, closed)[..0] + w.table[0..] == w.table;
  }

  /** An undisturbed pass comes to its closed form. */
  lemma PassIsReconcile(cfg: Config, w: World, gate: bool)
    requires UniqueTickets(w.table)
    ensures Run(cfg, w, PassOps(gate, |w.table|, [])) == Reconcile(w, gate)
  {
    var n := |w.table|;
    var steps := Iterations(ResolveSteps(n, []), [], n);
    hide Apply, Iterations, Run;
    StepsResolve(cfg, w, gate, n);
    RunOne(cfg, w, BeginOp(gate));
    RunConcat(cfg, w, [BeginOp(gate)], steps);
    RunStep(cfg, w, [BeginOp(gate)] + steps, EndOp);
    EndsAsReconcile(cfg, w, gate);
    BeginIs(cfg, w, gate);
  }

  lemma BeginIs(cfg: Config, w: World, gate: bool)
    ensures Apply(cfg, w, BeginOp(gate)) == BeginPass(w, gate)
  {
    hide BeginPass;
  }

  lemma EndsAsReconcile(cfg: Config, w: World, gate: bool)
    ensures Apply(cfg, ResolvedTo(w, gate, |w.table|), EndOp) == Reconcile(w, gate)
  {
    hide Unexplained, LateCloses, ResolveTable, Orphans, OrphanIssues, MissingIssues, TicketSet;
    var live, closed := TicketSet(w.book.positions), w.book.closed;
    assert w.table[..|w.table|] == w.table;
    assert ResolveTable(w.table, live, closed)[..|w.table|] + w.table[|w.table|..] == ResolveTable(w.table, live, closed);
    assert (w.reported + Orphans(w)) * Orphans(w) == Orphans(w);
  }

  // ---------- a pass with interruptions ----------

  predicate IsLive(w: World, t: Ticket) {
    t in TicketSet(w.book.positions)
  }

  /** A pass over `n` records has dealt with the first `i`; positions only join in the meantime. */
  ghost predicate DealtWith(w: World, n: nat, i: nat) {
    && w.pass.Some? && w.pass.value.rows == n <= |w.table| && i <= n
    && (forall t :: t in w.pass.value.live ==> IsLive(w, t))
    && (forall j :: 0 <= j < i ==> !IsMissing(w.table[j], w.pass.value.live))
    && (forall j :: n <= j < |w.table| && w.table[j].status == Open ==> IsLive(w, w.table[j].ticket))
  }

  lemma {:induction false} HandledKeepDealt(cfg: Config, w: World, handled: seq<Op>, n: nat, i: nat)
    requires DealtWith(w, n, i) && forall op :: op in handled ==> Interruption(op)
    ensures DealtWith(Run(cfg, w, handled), n, i)
  {
    hide DealtWith, Apply;
    if handled != [] {
      HandledKeepDealt(cfg, w, handled[..|handled| - 1], n, i);
      InterruptionKeepsDealt(cfg, Run(cfg, w, handled[..|handled| - 1]), handled[|handled| - 1], n, i);
    }
  }

  lemma InterruptionKeepsDealt(cfg: Config, w: World, op: Op, n: nat, i: nat)
    requires DealtWith(w, n, i) && Interruption(op)
    ensures DealtWith(Apply(cfg, w, op), n, i)
  {
    hide OpenCount, LastPrice, Round2, TicketSet;
    var w' := Apply(cfg, w, op);
    forall t
      ensures IsLive(w, t) ==> IsLive(w', t)
      ensures |w'.table| > |w.table| ==> IsLive(w', w'.table[|w.table|].ticket)
    {
      JoinedLive(w.book.positions, w'.book.positions, t);
      if |w'.table| > |w.table| {
        var p := w'.book.positions[|w.book.positions|];
        assert p in w'.book.positions && p.ticket == w'.table[|w.table|].ticket;
        MemberLive(w'.book.positions, p);
      }
    }
  }

  lemma JoinedLive(a: seq<Position>, b: seq<Position>, t: Ticket)
    requires a <= b
    ensures t in TicketSet(a) ==> t in TicketSet(b)
  {
  }

  lemma MemberLive(ps: seq<Position>, p: Position)
    requires p in ps
    ensures p.ticket in TicketSet(ps)
  {
  }

  lemma ResolveDeals(w: World, n: nat, i: nat)
    requires DealtWith(w, n, i) && i < n && UniqueTickets(w.table)
    ensures DealtWith(ResolveRecord(w, i), n, i + 1)
  {
    hide FirstClosed, TicketSet, SettleRow;
    if IsMissing(w.table[i], w.pass.value.live) {
      OpenRowIsFirst(w.table, i);
      SettledIsClosed();
    }
  }

  lemma SettledIsClosed()
    ensures forall r: TradeRecord, c: ClosedTrade :: SettleRow(r, c).status == Closed
  {
  }

  lemma {:induction false} IterationsDeal(cfg: Config, w: World, slots: seq<Slot>, n: nat, i: nat, start: real)
    requires i <= n && !Aborts(slots, i) && Interruptions(slots) && DealtWith(w, n, 0) && Inv(w, start)
    requires AllowedRun(cfg, w, Iterations(ResolveSteps(n, slots), slots, i))
    ensures DealtWith(Run(cfg, w, Iterations(ResolveSteps(n, slots), slots, i)), n, i)
  {
    hide DealtWith, Inv, Apply, Interruptions, Iterations, Run, AllowedRun, Allowed;
    var steps := ResolveSteps(n, slots);
    if i == 0 {
      NoIterations(cfg, w, steps, slots);
    } else {
      var done, slot := Iterations(steps, slots, i - 1), SlotAt(slots, i - 1);
      IterationIs(steps, slots, i - 1);
      AllowedConcat(cfg, w, done + [steps[i - 1]], slot.handled);
      AllowedConcat(cfg, w, done, [steps[i - 1]]);
      IterationsDeal(cfg, w, slots, n, i - 1, start);
      RunKeeps(cfg, w, done, start);
      InvHasUniqueTickets(Run(cfg, w, done), start);
      RunIteration(cfg, w, done, steps[i - 1], slot.handled);
      ResolveIs(cfg, Run(cfg, w, done), i - 1);
      ResolveDeals(Run(cfg, w, done), n, i - 1);
      HandledAre(slots, i - 1);
      HandledKeepDealt(cfg, Run(cfg, w, done + [steps[i - 1]]), slot.handled, n, i);
    }
  }

  lemma InvHasUniqueTickets(w: World, start: real)
    requires Inv(w, start)
    ensures UniqueTickets(w.table)
  {
  }

  /** After a pass that no step aborted, whatever was handled in between, every OPEN ticketed record
      has a position at the broker. */
  lemma FinishedPassResolves(cfg: Config, w: World, gate: bool, slots: seq<Slot>, start: real, r: TradeRecord)
    requires Inv(w, start) && Interruptions(slots) && !Aborts(slots, |w.table|)
    requires AllowedRun(cfg, w, PassOps(gate, |w.table|, slots))
    requires r in Run(cfg, w, PassOps(gate, |w.table|, slots)).table && r.status == Open && Ticketed(r)
    ensures IsLive(Run(cfg, w, PassOps(gate, |w.table|, slots)), r.ticket)
  {
    var n := |w.table|;
    var steps := Iterations(ResolveSteps(n, slots), slots, n);
    hide Inv, Apply, Iterations, Run, AllowedRun, Interruptions, Aborts;
    AllowedConcat(cfg, w, [BeginOp(gate)] + steps, [EndOp]);
    AllowedConcat(cfg, w, [BeginOp(gate)], steps);
    RunOne(cfg, w, BeginOp(gate));
    BeginIs(cfg, w, gate);
    BeginKeeps(w, gate, start);
    BeginDeals(w, gate);
    RunConcat(cfg, w, [BeginOp(gate)], steps);
    IterationsDeal(cfg, BeginPass(w, gate), slots, n, n, start);
    RunStep(cfg, w, [BeginOp(gate)] + steps, EndOp);
    hide BeginPass;
    var end := Run(cfg, w, [BeginOp(gate)] + steps);
    EndKeepsStores(cfg, end);
    var j :| 0 <= j < |end.table| && end.table[j] == r;
    assert j < n ==> !IsMissing(end.table[j], end.pass.value.live);
  }

  lemma BeginDeals(w: World, gate: bool)
    ensures DealtWith(BeginPass(w, gate), |w.table|, 0)
  {
  }

  lemma EndKeepsStores(cfg: Config, w: World)
    ensures Apply(cfg, w, EndOp).book == w.book && Apply(cfg, w, EndOp).table == w.table
  {
  }

  /** An order whose record cannot be stored leaves two positions, both reported by the next pass. */
  lemma UnstorableOrderLeavesOrphans(cfg: Config, w: World, o: Order, t1: Ticket, t2: Ticket)
    requires Allowed(w, ApproveOp(o, t1, t2, false)) && LastPrice(w.prices, o.symbol).Some?
    requires cfg.maxOpen == 0 || OpenCount(w.table) < cfg.maxOpen
    requires t1 !in w.reported && t2 !in w.reported
    ensures var after := Approve(cfg, w, o, t1, t2, false);
      && |after.book.positions| == |w.book.positions| + 2 && after.table == w.table
      && {t1, t2} <= Orphans(after) - after.reported
  {
    hide OpenCount, LastPrice;
    var after := Approve(cfg, w, o, t1, t2, false);
    assert after.book.positions[|w.book.positions|].ticket == t1 && after.book.positions[|w.book.positions| + 1].ticket == t2;
    assert t1 in TicketSet(after.book.positions) && t2 in TicketSet(after.book.positions);
  }
}
