/** When the snapshot cache is invisible: over any sequence of calls, exactly while a snapshot that
    one call leaves behind is also what the next call's own history gives. */
module CacheTransparency {
  import opened Prelude
  import opened IctSnapshot
  import opened IctTracker
  import opened IctReplay
  import opened IctCache

  /** What the cache holds when call `m` starts. */
  function CacheBefore(calls: seq<History>, cfg: IctConfig, m: nat): Cache
    requires cfg.Valid() && m <= |calls|
  {
    if m == 0 then map[] else NextCache(calls[m - 1], cfg, CacheBefore(calls, cfg, m - 1))
  }

  /** The H1 candles closed at M5 candle `i`. */
  function PrefixAt(h: History, i: nat): seq<Candle>
    requires i < |h.m5|
  {
    h.h1[..CutAt(h, i)]
  }

  /** At every M5 candle the call is handed the snapshot that its own history gives. */
  ghost predicate SeesOwn(h: History, cfg: IctConfig, cache: Cache)
    requires cfg.Valid()
  {
    forall i :: 0 <= i < |h.m5| ==> Lookup(cache, h.h1, CutAt(h, i), cfg) == BuildH1Snapshot(PrefixAt(h, i), cfg)
  }

  ghost predicate TransparentAt(calls: seq<History>, cfg: IctConfig, m: nat)
    requires cfg.Valid() && m < |calls|
  {
    Enough(calls[m]) ==> SeesOwn(calls[m], cfg, CacheBefore(calls, cfg, m))
  }

  /** The last call before `m` that had enough history to run. */
  function LastRun(calls: seq<History>, m: nat): (r: Option<nat>)
    requires m <= |calls|
    ensures r.Some? ==> r.value < m && Enough(calls[r.value])
  {
    if m == 0 then None else if Enough(calls[m - 1]) then Some(m - 1) else LastRun(calls, m - 1)
  }

  /** Two candles of the calls need the snapshot of the same last H1 candle. */
  predicate SameKey(a: History, b: History, i: nat, j: nat)
    requires i < |a.m5| && j < |b.m5|
  {
    CutAt(a, i) > 0 && CutAt(b, j) > 0 && a.h1[CutAt(a, i) - 1].time == b.h1[CutAt(b, j) - 1].time
  }

  /** Where both calls need the snapshot of the same last H1 candle, their histories give the same. */
  ghost predicate SameSnapshots(a: History, b: History, cfg: IctConfig)
    requires cfg.Valid()
  {
    forall i, j :: 0 <= i < |a.m5| && 0 <= j < |b.m5| && SameKey(a, b, i, j) && BuildH1Snapshot(PrefixAt(a, i), cfg).Some? ==>
      BuildH1Snapshot(PrefixAt(a, i), cfg) == BuildH1Snapshot(PrefixAt(b, j), cfg)
  }

  ghost predicate ConsistentAt(calls: seq<History>, cfg: IctConfig, m: nat)
    requires cfg.Valid() && m < |calls|
  {
    Enough(calls[m]) && LastRun(calls, m).Some? ==> SameSnapshots(calls[LastRun(calls, m).value], calls[m], cfg)
  }

  // ---------- what a call leaves ----------

  lemma {:induction false} UsedMembers(h: History, cfg: IctConfig, cache: Cache, n: nat, k: int)
    requires cfg.Valid() && n <= |h.m5|
    ensures k in UsedBelow(h, cfg, cache, n)
       <==> exists i :: 0 <= i < n && CutAt(h, i) > 0 && h.h1[CutAt(h, i) - 1].time == k && Lookup(cache, h.h1, CutAt(h, i), cfg).Some?
  {
    hide Lookup, CutAt;
    if n > 0 {
      UsedMembers(h, cfg, cache, n - 1, k);
    }
  }

  /** A call that sees its own snapshots leaves exactly those of its candles. */
  lemma LeavesOwn(h: History, cfg: IctConfig, cache: Cache, k: int)
    requires cfg.Valid() && Increasing(h.h1) && SeesOwn(h, cfg, cache)
    ensures k in CacheAfter(h, cfg, cache) ==> exists i :: Leaves(h, cfg, cache, k, i)
    ensures forall i :: Needs(h, cfg, k, i) ==> Leaves(h, cfg, cache, k, i)
  {
    hide BuildH1Snapshot, Lookup, CutAt, UsedBelow;
    UsedMembers(h, cfg, cache, |h.m5|, k);
    forall i | Needs(h, cfg, k, i)
      ensures Leaves(h, cfg, cache, k, i)
    {
      PrefixOfKey(h.h1, CutAt(h, i));
    }
    if k in CacheAfter(h, cfg, cache) {
      var i :| 0 <= i < |h.m5| && CutAt(h, i) > 0 && h.h1[CutAt(h, i) - 1].time == k
               && Lookup(cache, h.h1, CutAt(h, i), cfg).Some?;
      assert Needs(h, cfg, k, i);
    }
  }

  /** Candle `i` needs the snapshot of the prefix that ends at `k`, and there is one. */
  ghost predicate Needs(h: History, cfg: IctConfig, k: int, i: int)
    requires cfg.Valid()
  {
    0 <= i < |h.m5| && CutAt(h, i) > 0 && h.h1[CutAt(h, i) - 1].time == k && BuildH1Snapshot(PrefixAt(h, i), cfg).Some?
  }

  /** Candle `i` makes the call leave its snapshot under `k`. */
  ghost predicate Leaves(h: History, cfg: IctConfig, cache: Cache, k: int, i: int)
    requires cfg.Valid()
  {
    && 0 <= i < |h.m5| && CutAt(h, i) > 0 && h.h1[CutAt(h, i) - 1].time == k
    && k in CacheAfter(h, cfg, cache) && BuildH1Snapshot(PrefixAt(h, i), cfg) == Some(CacheAfter(h, cfg, cache)[k])
  }

  /** After a call that saw its own snapshots, the next one does exactly when the two agree. */
  lemma NextSeesOwnIff(a: History, b: History, cfg: IctConfig, cache: Cache)
    requires cfg.Valid() && Increasing(a.h1) && SeesOwn(a, cfg, cache)
    ensures SeesOwn(b, cfg, CacheAfter(a, cfg, cache)) <==> SameSnapshots(a, b, cfg)
  {
    hide BuildH1Snapshot, CutAt, CacheAfter, SeesOwn;
    var next := CacheAfter(a, cfg, cache);
    if SameSnapshots(a, b, cfg) {
      forall j | 0 <= j < |b.m5|
        ensures Lookup(next, b.h1, CutAt(b, j), cfg) == BuildH1Snapshot(PrefixAt(b, j), cfg)
      {
        if CutAt(b, j) == 0 {
          NoPrefix(b, cfg, j);
        } else {
          var k := b.h1[CutAt(b, j) - 1].time;
          LeavesOwn(a, cfg, cache, k);
          if k in next {
            var i :| Leaves(a, cfg, cache, k, i);
            assert SameKey(a, b, i, j);
          }
        }
      }
      SeesOwnIs(b, cfg, next);
    }
    if SeesOwn(b, cfg, next) {
      forall i, j | 0 <= i < |a.m5| && 0 <= j < |b.m5| && SameKey(a, b, i, j) && BuildH1Snapshot(PrefixAt(a, i), cfg).Some?
        ensures BuildH1Snapshot(PrefixAt(a, i), cfg) == BuildH1Snapshot(PrefixAt(b, j), cfg)
      {
        LeavesOwn(a, cfg, cache, b.h1[CutAt(b, j) - 1].time);
        assert Needs(a, cfg, b.h1[CutAt(b, j) - 1].time, i);
        SeesOwnAt(b, cfg, next, j);
      }
    }
  }

  lemma NoPrefix(h: History, cfg: IctConfig, j: nat)
    requires cfg.Valid() && j < |h.m5| && CutAt(h, j) == 0
    ensures BuildH1Snapshot(PrefixAt(h, j), cfg) == None
  {
  }

  lemma SeesOwnIs(h: History, cfg: IctConfig, cache: Cache)
    requires cfg.Valid()
    requires forall i :: 0 <= i < |h.m5| ==> Lookup(cache, h.h1, CutAt(h, i), cfg) == BuildH1Snapshot(PrefixAt(h, i), cfg)
    ensures SeesOwn(h, cfg, cache)
  {
    hide BuildH1Snapshot, Lookup, CutAt;
  }

  lemma SeesOwnAt(h: History, cfg: IctConfig, cache: Cache, j: nat)
    requires cfg.Valid() && SeesOwn(h, cfg, cache) && j < |h.m5|
    ensures Lookup(cache, h.h1, CutAt(h, j), cfg) == BuildH1Snapshot(PrefixAt(h, j), cfg)
  {
    hide BuildH1Snapshot, Lookup, CutAt;
  }

  // ---------- sequences of calls ----------

  /** Only the last call that ran matters for what is cached. */
  lemma {:induction false} CacheIsOfLastRun(calls: seq<History>, cfg: IctConfig, m: nat)
    requires cfg.Valid() && m <= |calls|
    ensures CacheBefore(calls, cfg, m)
         == match LastRun(calls, m)
            case None => map[]
            case Some(j) => CacheAfter(calls[j], cfg, CacheBefore(calls, cfg, j))
  {
    hide CacheAfter;
    if m > 0 {
      CacheIsOfLastRun(calls, cfg, m - 1);
    }
  }

  lemma NothingCached(h: History, cfg: IctConfig)
    requires cfg.Valid()
    ensures SeesOwn(h, cfg, map[])
  {
    hide BuildH1Snapshot, CutAt;
    forall i | 0 <= i < |h.m5|
      ensures Lookup(map[], h.h1, CutAt(h, i), cfg) == BuildH1Snapshot(PrefixAt(h, i), cfg)
    {
      if CutAt(h, i) == 0 {
        NoPrefix(h, cfg, i);
      }
    }
    SeesOwnIs(h, cfg, map[]);
  }

  /** If every earlier call was transparent, the next one is exactly when it is consistent. */
  lemma TransparentAtIff(calls: seq<History>, cfg: IctConfig, m: nat)
    requires cfg.Valid() && m < |calls| && forall i :: 0 <= i < |calls| ==> Increasing(calls[i].h1)
    requires forall i :: 0 <= i < m ==> TransparentAt(calls, cfg, i)
    ensures TransparentAt(calls, cfg, m) <==> ConsistentAt(calls, cfg, m)
  {
    hide CacheAfter, SeesOwn, SameSnapshots;
    CacheIsOfLastRun(calls, cfg, m);
    var j := LastRun(calls, m);
    match j
    case None => NothingCached(calls[m], cfg);
    case Some(j) =>
      assert TransparentAt(calls, cfg, j);
      NextSeesOwnIff(calls[j], calls[m], cfg, CacheBefore(calls, cfg, j));
  }

  lemma {:induction false} AllTransparent(calls: seq<History>, cfg: IctConfig, m: nat)
    requires cfg.Valid() && m <= |calls| && forall i :: 0 <= i < |calls| ==> Increasing(calls[i].h1)
    requires forall i :: 0 <= i < m ==> ConsistentAt(calls, cfg, i)
    ensures forall i :: 0 <= i < m ==> TransparentAt(calls, cfg, i)
  {
    hide TransparentAt, ConsistentAt;
    if m > 0 {
      AllTransparent(calls, cfg, m - 1);
      TransparentAtIff(calls, cfg, m - 1);
    }
  }

  /** Over any sequence of calls, every call is handed its own snapshots throughout exactly when each
      agrees with the last call that ran before it on the snapshots that both need. */
  lemma TransparentIff(calls: seq<History>, cfg: IctConfig)
    requires cfg.Valid() && forall i :: 0 <= i < |calls| ==> Increasing(calls[i].h1)
    ensures (forall m :: 0 <= m < |calls| ==> TransparentAt(calls, cfg, m))
       <==> (forall m :: 0 <= m < |calls| ==> ConsistentAt(calls, cfg, m))
  {
    hide TransparentAt, ConsistentAt;
    if forall m :: 0 <= m < |calls| ==> ConsistentAt(calls, cfg, m) {
      AllTransparent(calls, cfg, |calls|);
    }
    if forall m :: 0 <= m < |calls| ==> TransparentAt(calls, cfg, m) {
      forall m | 0 <= m < |calls|
        ensures ConsistentAt(calls, cfg, m)
      {
        TransparentAtIff(calls, cfg, m);
      }
    }
  }

  /** Two calls whose histories differ on a snapshot that both need: the second is handed the first
      one's. */
  lemma HandedTheOther(a: History, b: History, cfg: IctConfig, i: nat, j: nat)
    requires cfg.Valid() && Increasing(a.h1) && Enough(a) && Enough(b) && i < |a.m5| && j < |b.m5| && SameKey(a, b, i, j)
    requires BuildH1Snapshot(PrefixAt(a, i), cfg).Some?
    requires BuildH1Snapshot(PrefixAt(a, i), cfg) != BuildH1Snapshot(PrefixAt(b, j), cfg)
    ensures Lookup(CacheBefore([a, b], cfg, 1), b.h1, CutAt(b, j), cfg) == BuildH1Snapshot(PrefixAt(a, i), cfg)
    ensures !ConsistentAt([a, b], cfg, 1) && !TransparentAt([a, b], cfg, 1)
  {
    hide BuildH1Snapshot, CutAt, CacheAfter, SeesOwn, Enough;
    assert CacheBefore([a, b], cfg, 0) == map[];
    assert CacheBefore([a, b], cfg, 1) == CacheAfter(a, cfg, map[]) && LastRun([a, b], 1) == Some(0);
    NothingCached(a, cfg);
    var k := b.h1[CutAt(b, j) - 1].time;
    LeavesOwn(a, cfg, map[], k);
    assert Needs(a, cfg, k, i) && Leaves(a, cfg, map[], k, i);
    NextSeesOwnIff(a, b, cfg, map[]);
  }

  // ---------- signals ----------

  lemma {:induction false} OwnSnapshotsReplay(h: History, cfg: IctConfig, sessions: Sessions, cache: Cache, n: nat)
    requires cfg.Valid() && n <= |h.m5| && SeesOwn(h, cfg, cache)
    ensures MemoReplay(h, cfg, sessions, cache, n) == Replay(h, cfg, sessions, n)
  {
    hide BuildH1Snapshot, BuildH4Snapshot, Advance, Lookup, OpenedBy;
    if n > 0 {
      OwnSnapshotsReplay(h, cfg, sessions, cache, n - 1);
      assert PrefixAt(h, n - 1) == ClosedH1(h.h1, h.m5[n - 1].time);
      SeesOwnAt(h, cfg, cache, n - 1);
      assert MemoTick(h, cfg, sessions, cache, n - 1) == TickAt(h, cfg, sessions, n - 1);
    }
  }

  lemma TransparentGenerates(calls: seq<History>, cfg: IctConfig, sessions: Sessions, m: nat)
    requires cfg.Valid() && m < |calls| && TransparentAt(calls, cfg, m)
    ensures MemoGenerate(calls[m], cfg, sessions, CacheBefore(calls, cfg, m)) == Generate(calls[m], cfg, sessions)
  {
    hide MemoReplay, Replay, SeesOwn, CacheBefore;
    if Enough(calls[m]) {
      OwnSnapshotsReplay(calls[m], cfg, sessions, CacheBefore(calls, cfg, m), |calls[m].m5|);
    }
  }

  /** A provider that only appends is consistent. */
  lemma AppendingIsConsistent(calls: seq<History>, cfg: IctConfig, m: nat)
    requires cfg.Valid() && m < |calls| && Increasing(calls[m].h1)
    requires forall j :: 0 <= j < m ==> calls[j].h1 <= calls[m].h1
    ensures ConsistentAt(calls, cfg, m)
  {
    hide BuildH1Snapshot, CutAt, Enough;
    var r := LastRun(calls, m);
    if r.Some? {
      var a, b := calls[r.value], calls[m];
      forall i, j | 0 <= i < |a.m5| && 0 <= j < |b.m5| && SameKey(a, b, i, j)
        ensures PrefixAt(a, i) == PrefixAt(b, j)
      {
        assert b.h1[CutAt(a, i) - 1] == a.h1[CutAt(a, i) - 1];
        assert CutAt(a, i) == CutAt(b, j);
      }
    }
  }

  lemma ConsistentGenerates(calls: seq<History>, cfg: IctConfig, sessions: Sessions)
    requires cfg.Valid() && forall i :: 0 <= i < |calls| ==> Increasing(calls[i].h1)
    ensures (forall i :: 0 <= i < |calls| ==> ConsistentAt(calls, cfg, i)) ==>
      forall i :: 0 <= i < |calls| ==>
        MemoGenerate(calls[i], cfg, sessions, CacheBefore(calls, cfg, i)) == Generate(calls[i], cfg, sessions)
  {
    hide MemoGenerate, Generate, CacheBefore, ConsistentAt, TransparentAt, Increasing;
    TransparentIff(calls, cfg);
    if forall i :: 0 <= i < |calls| ==> TransparentAt(calls, cfg, i) {
      forall i | 0 <= i < |calls|
        ensures MemoGenerate(calls[i], cfg, sessions, CacheBefore(calls, cfg, i)) == Generate(calls[i], cfg, sessions)
      {
        TransparentGenerates(calls, cfg, sessions, i);
      }
    }
  }

  /** The memoised strategy over any sequence of calls; on a consistent sequence, such as that of a
      provider that only appends, it gives what recomputing from scratch gives. */
  method GenerateRepeatedly(cfg: IctConfig, sessions: Sessions, calls: seq<History>) returns (results: seq<seq<Signal>>)
    requires cfg.Valid()
    requires forall i :: 0 <= i < |calls| ==> Increasing(calls[i].h1) && Increasing(calls[i].h4)
    ensures |results| == |calls|
    ensures forall i :: 0 <= i < |calls| ==>
      results[i] == MemoGenerate(calls[i], cfg, sessions, CacheBefore(calls, cfg, i))
    ensures (forall i :: 0 <= i < |calls| ==> ConsistentAt(calls, cfg, i)) ==>
      forall i :: 0 <= i < |calls| ==> results[i] == Generate(calls[i], cfg, sessions)
  {
    hide MemoGenerate, Generate, NextCache, ConsistentAt, TransparentAt;
    var strategy := new IctStrategy(cfg, sessions);
    results := [];
    for i := 0 to |calls|
      invariant fresh(strategy) && strategy.cfg == cfg && strategy.sessions == sessions
      invariant strategy.h1Snapshots == CacheBefore(calls, cfg, i)
      invariant |results| == i
      invariant forall j :: 0 <= j < i ==> results[j] == MemoGenerate(calls[j], cfg, sessions, CacheBefore(calls, cfg, j))
    {
      var signals := strategy.GenerateSignals(calls[i]);
      results := results + [signals];
    }
    ConsistentGenerates(calls, cfg, sessions);
  }
}
