/** How often an orphaned position is alerted over a run of the execution service: once for each
    uninterrupted stay, unless the pass that first saw it did not finish. */
module OrphanAlerts {
  import opened Prelude
  import opened PaperBroker
  import opened Ledger
  import opened LedgerInvariants

  /** One reconciliation pass of a run: the orphans it found and whether it came to its end. */
  datatype Sight = Sight(orphans: set<Ticket>, finished: bool)

  /** The passes of a run, in order. */
  function Passes(cfg: Config, w: World, ops: seq<Op>): seq<Sight> {
    if ops == [] then []
    else
      var front, now, op := Passes(cfg, w, ops[..|ops| - 1]), Run(cfg, w, ops[..|ops| - 1]), ops[|ops| - 1];
      if op.BeginOp? then front + [Sight(Orphans(now), false)]
      else if op.EndOp? && now.pass.Some? && front != [] then front[..|front| - 1] + [front[|front| - 1].(finished := true)]
      else front
  }

  /** The ticket was an orphan in the last of the first `k` passes that finished, or in one since. */
  predicate SeenBefore(passes: seq<Sight>, k: nat, t: Ticket)
    requires k <= |passes|
  {
    k > 0 && (t in passes[k - 1].orphans || (!passes[k - 1].finished && SeenBefore(passes, k - 1, t)))
  }

  /** Pass `k` is the first to see an uninterrupted stay of the orphan. */
  predicate StayBegins(passes: seq<Sight>, k: nat, t: Ticket)
    requires k < |passes|
  {
    t in passes[k].orphans && !SeenBefore(passes, k, t)
  }

  function Stays(passes: seq<Sight>, n: nat, t: Ticket): nat
    requires n <= |passes|
  {
    if n == 0 then 0 else Stays(passes, n - 1, t) + (if StayBegins(passes, n - 1, t) then 1 else 0)
  }

  /** The stays whose first pass did not finish. */
  function Unalerted(passes: seq<Sight>, n: nat, t: Ticket): nat
    requires n <= |passes|
  {
    if n == 0 then 0
    else Unalerted(passes, n - 1, t) + (if StayBegins(passes, n - 1, t) && !passes[n - 1].finished then 1 else 0)
  }

  /** How often the published alerts name the orphan. */
  function Alerts(events: seq<Event>, t: Ticket): nat {
    if events == [] then 0
    else
      var e := events[|events| - 1];
      Alerts(events[..|events| - 1], t) + (if e.Critical? && t in e.orphans then 1 else 0)
  }

  // ---------- what the passes determine ----------

  lemma {:induction false} SamePrefix(a: seq<Sight>, b: seq<Sight>, n: nat, t: Ticket)
    requires n <= |a| && n <= |b| && a[..n] == b[..n]
    ensures SeenBefore(a, n, t) == SeenBefore(b, n, t) && Stays(a, n, t) == Stays(b, n, t) && Unalerted(a, n, t) == Unalerted(b, n, t)
  {
    if n > 0 {
      assert a[n - 1] == a[..n][n - 1] && b[n - 1] == b[..n][n - 1];
      assert a[..n - 1] == a[..n][..n - 1] && b[..n - 1] == b[..n][..n - 1];
      SamePrefix(a, b, n - 1, t);
    }
  }

  lemma {:induction false} AlertsConcat(a: seq<Event>, b: seq<Event>, t: Ticket)
    ensures Alerts(a + b, t) == Alerts(a, t) + Alerts(b, t)
  {
    if b == [] {
      assert a + b == a;
    } else {
      AlertsConcat(a, b[..|b| - 1], t);
      assert (a + b)[..|a + b| - 1] == a + b[..|b| - 1];
    }
  }

  /** The reported orphans are those seen before, a pass under way is the last of the run, and what has
      been alerted are the stays less the unalerted ones. */
  ghost predicate Follows(w: World, passes: seq<Sight>, t: Ticket) {
    var n := |passes|;
    && (t in w.reported <==> SeenBefore(passes, n, t))
    && (w.pass.Some? ==>
          && n > 0 && !passes[n - 1].finished && w.pass.value.orphans == passes[n - 1].orphans
          && (t in w.pass.value.alerts <==> StayBegins(passes, n - 1, t)))
    && Alerts(w.events, t) + Unalerted(passes, n, t) == Stays(passes, n, t)
  }

  lemma BeginFollows(w: World, passes: seq<Sight>, t: Ticket, gate: bool)
    requires Follows(w, passes, t)
    ensures Follows(BeginPass(w, gate), passes + [Sight(Orphans(w), false)], t)
  {
    hide Orphans, OrphanIssues;
    var n, next := |passes|, passes + [Sight(Orphans(w), false)];
    assert next[..n] == passes[..n] == passes;
    SamePrefix(passes, next, n, t);
  }

  lemma EndFollows(w: World, passes: seq<Sight>, t: Ticket)
    requires Follows(w, passes, t) && w.pass.Some?
    ensures Follows(EndPass(w), passes[..|passes| - 1] + [passes[|passes| - 1].(finished := true)], t)
  {
    hide SeenBefore, Stays, Unalerted, StayBegins, Alerts;
    LastFinishes(passes, t);
    var pass := w.pass.value;
    var published := if pass.alerts != {} || pass.missing != [] then [Critical(pass.alerts, pass.missing)] else [];
    AlertsConcat(w.events, published, t);
    PublishedAlerts(pass, t);
    assert EndPass(w).events == w.events + published;
  }

  /** When the last pass finishes, its orphans are those seen, and a stay that began in
      it is unalerted no longer. */
  lemma LastFinishes(passes: seq<Sight>, t: Ticket)
    requires passes != [] && !passes[|passes| - 1].finished
    ensures var n := |passes|;
      var next := passes[..n - 1] + [passes[n - 1].(finished := true)];
      && (SeenBefore(next, n, t) <==> t in passes[n - 1].orphans) && Stays(next, n, t) == Stays(passes, n, t)
      && Unalerted(passes, n, t) == Unalerted(next, n, t) + (if StayBegins(passes, n - 1, t) then 1 else 0)
      && (t in passes[n - 1].orphans ==> SeenBefore(passes, n, t))
  {
    var n := |passes|;
    var next := passes[..n - 1] + [passes[n - 1].(finished := true)];
    assert next[..n - 1] == passes[..n - 1];
    SamePrefix(passes, next, n - 1, t);
  }

  lemma PublishedAlerts(pass: Pass, t: Ticket)
    ensures Alerts(if pass.alerts != {} || pass.missing != [] then [Critical(pass.alerts, pass.missing)] else [], t)
         == if t in pass.alerts then 1 else 0
  {
    assert [Critical(pass.alerts, pass.missing)][..0] == [];
  }

  /** An operation that only emits other events and leaves reports and passes alone. */
  ghost predicate Silent(w: World, w': World) {
    && w'.reported == w.reported
    && (w'.pass.Some? ==> w.pass.Some? && w'.pass.value.orphans == w.pass.value.orphans && w'.pass.value.alerts == w.pass.value.alerts)
    && (w'.events == w.events || exists e :: w'.events == w.events + [e] && !e.Critical?)
  }

  lemma SilentFollows(w: World, w': World, passes: seq<Sight>, t: Ticket)
    requires Follows(w, passes, t) && Silent(w, w')
    ensures Follows(w', passes, t)
  {
    if w'.events != w.events {
      var e :| w'.events == w.events + [e] && !e.Critical?;
      assert (w.events + [e])[..|w.events|] == w.events;
    }
  }

  lemma SettleSilent(w: World, c: ClosedTrade)
    ensures Silent(w, Settle(w, c))
  {
    hide SettleRow;
  }

  lemma RowsSilent(cfg: Config, w: World, i: nat, bosClose: Option<real>, view: Option<LineView>, fault: Fault)
    ensures Silent(w, ManageIctRow(cfg, w, i, bosClose, fault)) && Silent(w, ManageLineRow(cfg, w, i, view, fault))
  {
    hide Risk, BreakevenDue, TrailCandidate, BeyondLine, Tightens, TradeOf, AfterClose, FirstOpen, Round2, LastPrice, SettleRow, WithStop;
  }

  lemma OthersSilent(cfg: Config, w: World, op: Op)
    requires !op.BeginOp? && !(op.EndOp? && w.pass.Some?)
    ensures Silent(w, Apply(cfg, w, op))
  {
    hide FirstClosed, Settle, AfterExits, Equity, OpenCount, LastPrice, ManageIctRow, ManageLineRow;
    match op
    case ResolveOp(i, _) =>
      if Resolves(w, i) {
        var c := FirstClosed(w.book.closed, w.table[i].ticket);
        if c.Some? {
          SettleSilent(w, c.value);
        }
      }
    case SettleOp(k, _) =>
      if k < |w.book.closed| {
        SettleSilent(w, w.book.closed[k]);
      }
    case IctOp(i, bosClose, fault) => RowsSilent(cfg, w, i, bosClose, None, fault);
    case LineOp(i, view, fault) => RowsSilent(cfg, w, i, None, view, fault);
    case _ =>
  }

  lemma {:induction false} RunFollows(cfg: Config, w: World, ops: seq<Op>, t: Ticket)
    requires Follows(w, [], t)
    ensures Follows(Run(cfg, w, ops), Passes(cfg, w, ops), t)
  {
    hide Follows, Silent, BeginPass, EndPass, Orphans;
    if ops != [] {
      var before, op := ops[..|ops| - 1], ops[|ops| - 1];
      RunFollows(cfg, w, before, t);
      var now, passes := Run(cfg, w, before), Passes(cfg, w, before);
      if op.BeginOp? {
        BeginFollows(now, passes, t, op.gate);
      } else if op.EndOp? && now.pass.Some? {
        HasPass(now, passes, t);
        EndFollows(now, passes, t);
      } else {
        OthersSilent(cfg, now, op);
        SilentFollows(now, Apply(cfg, now, op), passes, t);
      }
    }
  }

  lemma HasPass(w: World, passes: seq<Sight>, t: Ticket)
    requires Follows(w, passes, t) && w.pass.Some?
    ensures passes != []
  {
  }

  // ---------- whole runs ----------

  /** A process starts without reports, events and passes. */
  lemma StartFollows(contractSize: real, start: real, table: seq<TradeRecord>, t: Ticket)
    ensures Follows(StartWorld(contractSize, start, table), [], t)
  {
  }

  /** Over any run, an orphan is alerted once for each of its stays, except for those whose first pass
      did not finish; never more often. */
  lemma AlertsAreNewOrphans(cfg: Config, contractSize: real, start: real, table: seq<TradeRecord>, ops: seq<Op>, t: Ticket)
    ensures var w := StartWorld(contractSize, start, table);
      var end, passes := Run(cfg, w, ops), Passes(cfg, w, ops);
      Alerts(end.events, t) == Stays(passes, |passes|, t) - Unalerted(passes, |passes|, t)
  {
    hide Run, Passes;
    var w := StartWorld(contractSize, start, table);
    StartFollows(contractSize, start, table, t);
    RunFollows(cfg, w, ops, t);
  }

  lemma {:induction false} NoneUnalertedIff(passes: seq<Sight>, n: nat, t: Ticket)
    requires n <= |passes|
    ensures Unalerted(passes, n, t) == 0 <==> forall k :: 0 <= k < n && StayBegins(passes, k, t) ==> passes[k].finished
  {
    if n > 0 {
      NoneUnalertedIff(passes, n - 1, t);
    }
  }

  /** Every stay of an orphan is alerted exactly once exactly when every pass that first sees one comes
      to its end: a pass remembers an orphan as reported before it publishes its alert. */
  lemma OneAlertPerStayIff(cfg: Config, contractSize: real, start: real, table: seq<TradeRecord>, ops: seq<Op>, t: Ticket)
    ensures var w := StartWorld(contractSize, start, table);
      var end, passes := Run(cfg, w, ops), Passes(cfg, w, ops);
      Alerts(end.events, t) == Stays(passes, |passes|, t)
      <==> forall k :: 0 <= k < |passes| && StayBegins(passes, k, t) ==> passes[k].finished
  {
    hide Run, Passes;
    AlertsAreNewOrphans(cfg, contractSize, start, table, ops, t);
    var passes := Passes(cfg, StartWorld(contractSize, start, table), ops);
    NoneUnalertedIff(passes, |passes|, t);
  }
}
