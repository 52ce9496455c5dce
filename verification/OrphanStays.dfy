/** An orphan that is gone never returns: over a run its stay is one interval, alerted at most once. */
module OrphanStays {
  import opened Prelude
  import opened PaperBroker
  import opened Ledger
  import opened LedgerInvariants
  import opened OrphanAlerts
  import opened TicketSupply

  ghost predicate HasRow(w: World, t: Ticket) {
    exists i :: 0 <= i < |w.table| && w.table[i].ticket == t
  }

  /** An orphan is a live position without any record, open or not. */
  lemma OrphanIff(w: World, t: Ticket, start: real)
    requires Inv(w, start)
    ensures t in Orphans(w) <==> Live(w.book.positions, t) > 0 && !HasRow(w, t)
  {
    TicketSetIff(w.book.positions, t);
    if t in TicketSet(w.book.positions) {
      var p :| p in w.book.positions && p.ticket == t;
      LiveMember(w.book.positions, p);
      assert Issued(w.book, "") == 0;
      forall i | 0 <= i < |w.table| && w.table[i].ticket == t
        ensures t in OpenTickets(w.table)
      {
        assert Matches(w.table[i], p) && w.table[i] in w.table;
      }
    }
  }

  /** A ticket without a record that has been issued never gets one. */
  lemma NoRowStays(cfg: Config, w: World, op: Op, t: Ticket)
    requires Allowed(w, op) && Issued(w.book, t) >= 1 && !HasRow(w, t)
    ensures !HasRow(Apply(cfg, w, op), t)
  {
    TableTickets(cfg, w, op);
    hide Apply, Issued;
  }

  lemma {:induction false} NeverGetsRow(cfg: Config, w: World, ops: seq<Op>, t: Ticket, start: real)
    requires Inv(w, start) && AllowedRun(cfg, w, ops) && Issued(w.book, t) >= 1 && !HasRow(w, t)
    ensures !HasRow(Run(cfg, w, ops), t)
  {
    hide Inv, Apply, Issued, HasRow;
    if ops != [] {
      var front := ops[..|ops| - 1];
      NeverGetsRow(cfg, w, front, t, start);
      GoneForGood(cfg, w, front, t, start);
      NoRowStays(cfg, Run(cfg, w, front), ops[|ops| - 1], t);
    }
  }

  /** Once an orphan is gone it is gone for good, whatever the service does. */
  lemma OrphanNeverReturns(cfg: Config, w: World, ops: seq<Op>, more: seq<Op>, t: Ticket, start: real)
    requires Inv(w, start) && AllowedRun(cfg, w, ops) && AllowedRun(cfg, Run(cfg, w, ops), more)
    requires t in Orphans(w) && t !in Orphans(Run(cfg, w, ops))
    ensures t !in Orphans(Run(cfg, Run(cfg, w, ops), more))
  {
    hide Inv, Run, AllowedRun, Orphans, Live, HasRow;
    var gone := Run(cfg, w, ops);
    OrphanIff(w, t, start);
    RunKeeps(cfg, w, ops, start);
    NeverGetsRow(cfg, w, ops, t, start);
    GoneForGood(cfg, w, ops, t, start);
    OrphanIff(gone, t, start);
    NeverGetsRow(cfg, gone, more, t, start);
    GoneForGood(cfg, gone, more, t, start);
    RunKeeps(cfg, gone, more, start);
    OrphanIff(Run(cfg, gone, more), t, start);
  }

  // ---------- one stay ----------

  ghost predicate Sighted(passes: seq<Sight>, t: Ticket) {
    exists k :: 0 <= k < |passes| && t in passes[k].orphans
  }

  /** Between two passes that see the orphan every pass sees it. */
  ghost predicate OneInterval(passes: seq<Sight>, t: Ticket) {
    forall i, j, k :: 0 <= i <= j <= k < |passes| && t in passes[i].orphans && t in passes[k].orphans ==> t in passes[j].orphans
  }

  /** What has been sighted has been issued and has no record, and while it lives the last pass saw it. */
  ghost predicate Tracks(w: World, passes: seq<Sight>, t: Ticket) {
    && OneInterval(passes, t)
    && (Sighted(passes, t) ==>
          && Issued(w.book, t) >= 1 && !HasRow(w, t)
          && (Live(w.book.positions, t) > 0 ==> t in passes[|passes| - 1].orphans))
  }

  lemma BeginTracks(w: World, w': World, passes: seq<Sight>, t: Ticket, start: real)
    requires Inv(w, start) && Tracks(w, passes, t) && w'.book == w.book && w'.table == w.table
    ensures Tracks(w', passes + [Sight(Orphans(w), false)], t)
  {
    OrphanIff(w, t, start);
    var next, n := passes + [Sight(Orphans(w), false)], |passes|;
    hide Inv, Orphans, Live;
    assert next[n].orphans == Orphans(w) && forall k :: 0 <= k < n ==> next[k] == passes[k];
    if t in Orphans(w) && Sighted(passes, t) {
      assert t in passes[n - 1].orphans;
    }
  }

  lemma EndTracks(w: World, w': World, passes: seq<Sight>, t: Ticket)
    requires passes != [] && Tracks(w, passes, t) && w'.book == w.book && w'.table == w.table
    ensures Tracks(w', passes[..|passes| - 1] + [passes[|passes| - 1].(finished := true)], t)
  {
    var n := |passes|;
    var next := passes[..n - 1] + [passes[n - 1].(finished := true)];
    assert forall k :: 0 <= k < n ==> next[k].orphans == passes[k].orphans;
    hide Live, Issued;
  }

  lemma StepTracks(cfg: Config, w: World, op: Op, passes: seq<Sight>, t: Ticket, start: real)
    requires Inv(w, start) && Allowed(w, op) && Tracks(w, passes, t)
    ensures Tracks(Apply(cfg, w, op), passes, t)
  {
    hide Inv, Apply, Issued, HasRow;
    if Sighted(passes, t) {
      IssuedKept(cfg, w, op, t, start);
      NoRowStays(cfg, w, op, t);
      if Live(Apply(cfg, w, op).book.positions, t) > 0 {
        LiveBefore(cfg, w, op, t, start);
      }
    }
  }

  lemma PassSteps(cfg: Config, w: World, op: Op)
    requires op.BeginOp? || op.EndOp?
    ensures Apply(cfg, w, op).book == w.book && Apply(cfg, w, op).table == w.table
  {
  }

  lemma {:induction false} RunTracks(cfg: Config, w: World, ops: seq<Op>, t: Ticket, start: real)
    requires Inv(w, start) && AllowedRun(cfg, w, ops)
    ensures Tracks(Run(cfg, w, ops), Passes(cfg, w, ops), t)
  {
    hide Inv, Apply, Tracks, Orphans;
    if ops == [] {
      NothingTracked(w, t);
    } else {
      var before, op := ops[..|ops| - 1], ops[|ops| - 1];
      var now, passes := Run(cfg, w, before), Passes(cfg, w, before);
      RunTracks(cfg, w, before, t, start);
      RunKeeps(cfg, w, before, start);
      if op.BeginOp? {
        PassSteps(cfg, now, op);
        BeginTracks(now, Apply(cfg, now, op), passes, t, start);
      } else if op.EndOp? && now.pass.Some? && passes != [] {
        PassSteps(cfg, now, op);
        EndTracks(now, Apply(cfg, now, op), passes, t);
      } else {
        StepTracks(cfg, now, op, passes, t, start);
      }
    }
  }

  lemma NothingTracked(w: World, t: Ticket)
    ensures Tracks(w, [], t)
  {
  }

  // ---------- one alert ----------

  predicate FirstSight(passes: seq<Sight>, k: nat, t: Ticket)
    requires k < |passes|
  {
    t in passes[k].orphans && forall j :: 0 <= j < k ==> t !in passes[j].orphans
  }

  lemma {:induction false} SeenIsSighted(passes: seq<Sight>, k: nat, t: Ticket)
    requires k <= |passes| && SeenBefore(passes, k, t)
    ensures exists j :: 0 <= j < k && t in passes[j].orphans
  {
    if t !in passes[k - 1].orphans {
      SeenIsSighted(passes, k - 1, t);
    }
  }

  /** A stay begins only where the orphan is first seen. */
  lemma StayBeginsIff(passes: seq<Sight>, k: nat, t: Ticket)
    requires OneInterval(passes, t) && k < |passes|
    ensures StayBegins(passes, k, t) <==> FirstSight(passes, k, t)
  {
    if SeenBefore(passes, k, t) {
      SeenIsSighted(passes, k, t);
    } else if k > 0 {
      assert t !in passes[k - 1].orphans;
    }
  }

  lemma {:induction false} CountStays(passes: seq<Sight>, n: nat, t: Ticket)
    requires OneInterval(passes, t) && n <= |passes|
    ensures Stays(passes, n, t) == if exists k :: 0 <= k < n && t in passes[k].orphans then 1 else 0
    ensures Stays(passes, n, t) - Unalerted(passes, n, t)
         == if exists k :: 0 <= k < n && FirstSight(passes, k, t) && passes[k].finished then 1 else 0
  {
    hide StayBegins, OneInterval;
    if n > 0 {
      CountStays(passes, n - 1, t);
      StayBeginsIff(passes, n - 1, t);
    }
  }

  /** Over any run from a start, an orphan has at most one stay, and is alerted at most once: exactly
      once when the pass that first sees it comes to its end. */
  lemma AlertedOnceIff(cfg: Config, contractSize: real, start: real, table: seq<TradeRecord>, ops: seq<Op>, t: Ticket)
    requires UniqueTickets(table) && AllowedRun(cfg, StartWorld(contractSize, start, table), ops)
    ensures var w := StartWorld(contractSize, start, table);
      var end, passes := Run(cfg, w, ops), Passes(cfg, w, ops);
      && OneInterval(passes, t)
      && (Stays(passes, |passes|, t) == if Sighted(passes, t) then 1 else 0)
      && (Alerts(end.events, t) == if exists k :: 0 <= k < |passes| && FirstSight(passes, k, t) && passes[k].finished then 1 else 0)
  {
    hide Run, Passes, AllowedRun, Inv, FirstSight;
    var w := StartWorld(contractSize, start, table);
    StartKeeps(contractSize, start, table);
    RunTracks(cfg, w, ops, t, start);
    AlertsAreNewOrphans(cfg, contractSize, start, table, ops, t);
    CountStays(Passes(cfg, w, ops), |Passes(cfg, w, ops)|, t);
  }
}
