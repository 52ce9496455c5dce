/** When the trendline cache is invisible: over any sequence of calls, exactly while every call finds
    the lines that an earlier call with the same last closed row found
    (services/strategy/trend_confluence.py). */
module LineCacheTransparency {
  import opened Prelude
  import opened Trendlines
  import opened TrendConfluence
  import IctReplay

  /** The rows the provider returns and the time the safety value is asked for. */
  datatype Query = Query(rows: seq<Candle>, t: int)

  function ClosedAt(q: Query, cfg: LineConfig): seq<Candle> {
    ClosedRows(q.rows, cfg, q.t)
  }

  function LinesBefore(calls: seq<Query>, cfg: LineConfig, m: nat): LineCache
    requires m <= |calls|
  {
    if m == 0 then map[] else NextLines(LinesBefore(calls, cfg, m - 1), calls[m - 1].rows, cfg, calls[m - 1].t)
  }

  ghost predicate TransparentAt(calls: seq<Query>, cfg: LineConfig, m: nat)
    requires m < |calls|
  {
    MemoLines(LinesBefore(calls, cfg, m), calls[m].rows, cfg, calls[m].t) == LinesOf(ClosedAt(calls[m], cfg), cfg)
  }

  /** The query looks its lines up under `k`. */
  predicate KeyIs(q: Query, cfg: LineConfig, k: int) {
    var closed := ClosedAt(q, cfg);
    |closed| >= 8 && closed[|closed| - 1].time == k
  }

  /** Both queries end at the same closed row, and the first found lines there. */
  predicate SameKey(a: Query, b: Query, cfg: LineConfig) {
    var closed := ClosedAt(b, cfg);
    |closed| >= 8 && KeyIs(a, cfg, closed[|closed| - 1].time) && LinesOf(ClosedAt(a, cfg), cfg).Success?
  }

  ghost predicate ConsistentAt(calls: seq<Query>, cfg: LineConfig, m: nat)
    requires m < |calls|
  {
    forall j :: 0 <= j < m && SameKey(calls[j], calls[m], cfg) ==>
      LinesOf(ClosedAt(calls[m], cfg), cfg) == LinesOf(ClosedAt(calls[j], cfg), cfg)
  }

  /** The call at `j` found the lines that are cached under `k`. */
  ghost predicate Fills(calls: seq<Query>, cfg: LineConfig, cache: LineCache, k: int, j: int)
    requires 0 <= j < |calls|
  {
    KeyIs(calls[j], cfg, k) && k in cache && LinesOf(ClosedAt(calls[j], cfg), cfg) == Success(cache[k])
  }

  /** While all calls are transparent, the cache holds exactly what they found. */
  lemma {:induction false} CacheHolds(calls: seq<Query>, cfg: LineConfig, m: nat, k: int)
    requires m <= |calls| && forall i :: 0 <= i < m ==> TransparentAt(calls, cfg, i)
    ensures var cache := LinesBefore(calls, cfg, m);
      && (k in cache ==> exists j :: 0 <= j < m && Fills(calls, cfg, cache, k, j))
      && (forall j :: 0 <= j < m && KeyIs(calls[j], cfg, k) && LinesOf(ClosedAt(calls[j], cfg), cfg).Success? ==>
            Fills(calls, cfg, cache, k, j))
  {
    hide LinesOf, ClosedAt;
    if m > 0 {
      var before, cache, q := LinesBefore(calls, cfg, m - 1), LinesBefore(calls, cfg, m), calls[m - 1];
      CacheHolds(calls, cfg, m - 1, k);
      assert TransparentAt(calls, cfg, m - 1);
      CallFills(before, q, cfg, k);
      forall j | 0 <= j < m && KeyIs(calls[j], cfg, k) && LinesOf(ClosedAt(calls[j], cfg), cfg).Success?
        ensures Fills(calls, cfg, cache, k, j)
      {
        if j < m - 1 {
          assert Fills(calls, cfg, before, k, j);
        }
      }
      if k in cache {
        if k in before {
          var j :| 0 <= j < m - 1 && Fills(calls, cfg, before, k, j);
          assert Fills(calls, cfg, cache, k, j);
        } else {
          assert Fills(calls, cfg, cache, k, m - 1);
        }
      }
    }
  }

  /** A transparent call caches what it found, and changes nothing that is cached. */
  lemma CallFills(before: LineCache, q: Query, cfg: LineConfig, k: int)
    requires MemoLines(before, q.rows, cfg, q.t) == LinesOf(ClosedAt(q, cfg), cfg)
    ensures var cache := NextLines(before, q.rows, cfg, q.t);
      && (k in before ==> k in cache && cache[k] == before[k])
      && (KeyIs(q, cfg, k) && LinesOf(ClosedAt(q, cfg), cfg).Success? ==>
            k in cache && LinesOf(ClosedAt(q, cfg), cfg) == Success(cache[k]))
      && (k in cache && k !in before ==> KeyIs(q, cfg, k) && LinesOf(ClosedAt(q, cfg), cfg) == Success(cache[k]))
  {
    hide LinesOf, ClosedRows;
  }

  lemma MemoIs(cache: LineCache, q: Query, cfg: LineConfig)
    ensures var closed := ClosedAt(q, cfg);
      MemoLines(cache, q.rows, cfg, q.t)
      == if |closed| >= 8 && closed[|closed| - 1].time in cache then Success(cache[closed[|closed| - 1].time])
         else LinesOf(closed, cfg)
  {
    hide ClosedRows;
  }

  lemma TransparentAtIff(calls: seq<Query>, cfg: LineConfig, m: nat)
    requires m < |calls| && forall i :: 0 <= i < m ==> TransparentAt(calls, cfg, i)
    ensures TransparentAt(calls, cfg, m) <==> ConsistentAt(calls, cfg, m)
  {
    hide LinesOf, ClosedAt, LinesBefore, MemoLines;
    var cache, q, closed := LinesBefore(calls, cfg, m), calls[m], ClosedAt(calls[m], cfg);
    MemoIs(cache, q, cfg);
    if |closed| >= 8 {
      var k := closed[|closed| - 1].time;
      CacheHolds(calls, cfg, m, k);
      forall j | 0 <= j < m && SameKey(calls[j], q, cfg)
        ensures k in cache && LinesOf(ClosedAt(calls[j], cfg), cfg) == Success(cache[k])
      {
        assert Fills(calls, cfg, cache, k, j);
      }
      if k in cache {
        var j :| 0 <= j < m && Fills(calls, cfg, cache, k, j);
        assert SameKey(calls[j], q, cfg);
      }
    }
  }

  lemma {:induction false} AllTransparent(calls: seq<Query>, cfg: LineConfig, m: nat)
    requires m <= |calls| && forall i :: 0 <= i < m ==> ConsistentAt(calls, cfg, i)
    ensures forall i :: 0 <= i < m ==> TransparentAt(calls, cfg, i)
  {
    hide TransparentAt, ConsistentAt;
    if m > 0 {
      AllTransparent(calls, cfg, m - 1);
      TransparentAtIff(calls, cfg, m - 1);
    }
  }

  /** Over any sequence of calls, every call is handed the lines of its own rows exactly when each
      agrees with every earlier call that found lines at the same last closed row. */
  lemma TransparentIff(calls: seq<Query>, cfg: LineConfig)
    ensures (forall m :: 0 <= m < |calls| ==> TransparentAt(calls, cfg, m))
       <==> (forall m :: 0 <= m < |calls| ==> ConsistentAt(calls, cfg, m))
  {
    hide TransparentAt, ConsistentAt;
    if forall m :: 0 <= m < |calls| ==> ConsistentAt(calls, cfg, m) {
      AllTransparent(calls, cfg, |calls|);
    }
    if forall m :: 0 <= m < |calls| ==> TransparentAt(calls, cfg, m) {
      forall m | 0 <= m < |calls|
        ensures ConsistentAt(calls, cfg, m)
      {
        TransparentAtIff(calls, cfg, m);
      }
    }
  }

  /** A provider that only appends is consistent. */
  lemma AppendingIsConsistent(calls: seq<Query>, cfg: LineConfig, m: nat)
    requires m < |calls| && IctReplay.Increasing(calls[m].rows)
    requires forall j :: 0 <= j < m ==> calls[j].rows <= calls[m].rows
    ensures ConsistentAt(calls, cfg, m)
  {
    hide LinesOf, IctReplay.OpenedBy;
    forall j | 0 <= j < m && SameKey(calls[j], calls[m], cfg)
      ensures ClosedAt(calls[j], cfg) == ClosedAt(calls[m], cfg)
    {
      var a, b := ClosedAt(calls[j], cfg), ClosedAt(calls[m], cfg);
      assert calls[m].rows[|a| - 1] == a[|a| - 1] && calls[m].rows[|b| - 1] == b[|b| - 1];
      assert |a| == |b|;
    }
  }

  lemma TransparentSafety(calls: seq<Query>, cfg: LineConfig, d: Direction, m: nat)
    requires m < |calls| && TransparentAt(calls, cfg, m)
    ensures MemoSafety(LinesBefore(calls, cfg, m), calls[m].rows, cfg, calls[m].t, d) == Safety(calls[m].rows, cfg, calls[m].t, d)
  {
    hide LinesOf, MemoLines;
  }

  lemma ConsistentSafety(calls: seq<Query>, cfg: LineConfig, d: Direction)
    ensures (forall i :: 0 <= i < |calls| ==> ConsistentAt(calls, cfg, i)) ==>
      forall i :: 0 <= i < |calls| ==>
        MemoSafety(LinesBefore(calls, cfg, i), calls[i].rows, cfg, calls[i].t, d) == Safety(calls[i].rows, cfg, calls[i].t, d)
  {
    hide TransparentAt, ConsistentAt, MemoSafety, Safety, LinesBefore;
    TransparentIff(calls, cfg);
    if forall i :: 0 <= i < |calls| ==> TransparentAt(calls, cfg, i) {
      forall i | 0 <= i < |calls|
        ensures MemoSafety(LinesBefore(calls, cfg, i), calls[i].rows, cfg, calls[i].t, d) == Safety(calls[i].rows, cfg, calls[i].t, d)
      {
        TransparentSafety(calls, cfg, d, i);
      }
    }
  }

  /** The memoised safety value over any sequence of calls; on a consistent sequence, such as that of
      a provider that only appends, it is the recomputed one. */
  method SafetyRepeatedly(cfg: LineConfig, calls: seq<Query>, d: Direction) returns (results: seq<Result<Option<real>>>)
    requires forall i :: 0 <= i < |calls| ==> IctReplay.Increasing(calls[i].rows)
    ensures |results| == |calls|
    ensures forall i :: 0 <= i < |calls| ==>
      results[i] == MemoSafety(LinesBefore(calls, cfg, i), calls[i].rows, cfg, calls[i].t, d)
    ensures (forall i :: 0 <= i < |calls| ==> ConsistentAt(calls, cfg, i)) ==>
      forall i :: 0 <= i < |calls| ==> results[i] == Safety(calls[i].rows, cfg, calls[i].t, d)
  {
    hide MemoSafety, Safety, NextLines, ConsistentAt;
    var strategy := new TrendConfluenceStrategy(cfg);
    results := [];
    for i := 0 to |calls|
      invariant fresh(strategy) && strategy.cfg == cfg && strategy.lineCache == LinesBefore(calls, cfg, i)
      invariant |results| == i
      invariant forall j :: 0 <= j < i ==>
        results[j] == MemoSafety(LinesBefore(calls, cfg, j), calls[j].rows, cfg, calls[j].t, d)
    {
      var value := strategy.SafetyValue(calls[i].rows, calls[i].t, d);
      results := results + [value];
    }
    ConsistentSafety(calls, cfg, d);
  }
}
