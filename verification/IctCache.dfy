/** The H1 snapshot cache of the ICT strategy across calls (services/strategy/ict.py): what the
    memoised replay computes on any provider, and when that is what recomputing gives. */
module IctCache {
  import opened Prelude
  import opened IctSnapshot
  import opened IctTracker
  import opened IctReplay
  import Indicators
  import MarketStructure

  type Cache = map<int, H1Snapshot>

  /** The snapshot handed out for the first `n` H1 candles: the one cached under their last time, if
      there is one, whatever history it was built from. */
  function Lookup(cache: Cache, h1: seq<Candle>, n: nat, cfg: IctConfig): Option<H1Snapshot>
    requires cfg.Valid() && n <= |h1|
  {
    if n == 0 then None
    else if h1[n - 1].time in cache then Some(cache[h1[n - 1].time])
    else BuildH1Snapshot(h1[..n], cfg)
  }

  /** How many H1 candles have closed when M5 candle `i` opens. */
  function CutAt(h: History, i: nat): (n: nat)
    requires i < |h.m5|
    ensures n <= |h.h1|
  {
    OpenedBy(h.h1, h.m5[i].time - H1_MINUTES)
  }

  function MemoTick(h: History, cfg: IctConfig, sessions: Sessions, cache: Cache, i: nat): Option<Tick>
    requires cfg.Valid() && i < |h.m5|
  {
    var c := h.m5[i];
    var h1 := Lookup(cache, h.h1, CutAt(h, i), cfg);
    var h4 := BuildH4Snapshot(ClosedH4(h.h4, c.time), cfg);
    if h1.None? || h4.None? then None
    else Some(Tick(c, Indicators.AtrAt(h.m5, MarketStructure.ATR_PERIOD, i), h1.value, h4.value, sessions(c.time)))
  }

  /** The replay with the snapshots that the cache of earlier calls hands out. */
  function MemoReplay(h: History, cfg: IctConfig, sessions: Sessions, cache: Cache, n: nat): (Tracker, seq<Signal>)
    requires cfg.Valid() && n <= |h.m5|
  {
    if n == 0 then (Fresh(), [])
    else
      var (t, signals) := MemoReplay(h, cfg, sessions, cache, n - 1);
      match MemoTick(h, cfg, sessions, cache, n - 1)
      case None => (t, signals)
      case Some(tick) => var (t', new_) := Advance(cfg, t, tick); (t', signals + new_)
  }

  /** The keys that the first `n` M5 candles use. */
  function UsedBelow(h: History, cfg: IctConfig, cache: Cache, n: nat): set<int>
    requires cfg.Valid() && n <= |h.m5|
  {
    if n == 0 then {}
    else
      var cut := CutAt(h, n - 1);
      UsedBelow(h, cfg, cache, n - 1)
      + (if cut > 0 && Lookup(cache, h.h1, cut, cfg).Some? then {h.h1[cut - 1].time} else {})
  }

  /** The snapshot a key stands for during a call. */
  function ValueOf(h: History, cfg: IctConfig, cache: Cache, key: int): Option<H1Snapshot>
    requires cfg.Valid()
  {
    Lookup(cache, h.h1, OpenedBy(h.h1, key), cfg)
  }

  /** What a call leaves in the cache: the snapshots it used, all others are evicted. */
  function CacheAfter(h: History, cfg: IctConfig, cache: Cache): Cache
    requires cfg.Valid()
  {
    map k | k in UsedBelow(h, cfg, cache, |h.m5|) && ValueOf(h, cfg, cache, k).Some? :: ValueOf(h, cfg, cache, k).value
  }

  /** A call with too little history returns before it touches the cache. */
  predicate Enough(h: History) {
    |h.m5| >= 100 && |h.h1| >= 40 && |h.h4| >= 20
  }

  function MemoGenerate(h: History, cfg: IctConfig, sessions: Sessions, cache: Cache): seq<Signal>
    requires cfg.Valid()
  {
    if Enough(h) then MemoReplay(h, cfg, sessions, cache, |h.m5|).1 else []
  }

  function NextCache(h: History, cfg: IctConfig, cache: Cache): Cache
    requires cfg.Valid()
  {
    if Enough(h) then CacheAfter(h, cfg, cache) else cache
  }

  // ---------- the strategy object ----------

  lemma PrefixOfKey(h1: seq<Candle>, n: nat)
    requires Increasing(h1) && 0 < n <= |h1|
    ensures OpenedBy(h1, h1[n - 1].time) == n
  {
    OpenedByIs(h1, h1[n - 1].time, n);
  }

  /** Caching what a lookup found changes no lookup. */
  lemma CachingKeepsLookups(cache: Cache, h1: seq<Candle>, n: nat, m: nat, cfg: IctConfig)
    requires cfg.Valid() && Increasing(h1) && 0 < n <= |h1| && m <= |h1| && Lookup(cache, h1, n, cfg).Some?
    ensures Lookup(cache[h1[n - 1].time := Lookup(cache, h1, n, cfg).value], h1, m, cfg) == Lookup(cache, h1, m, cfg)
  {
    hide BuildH1Snapshot;
  }

  ghost predicate SameLookups(a: Cache, b: Cache, h1: seq<Candle>, cfg: IctConfig)
    requires cfg.Valid()
  {
    forall m: nat :: m <= |h1| ==> Lookup(a, h1, m, cfg) == Lookup(b, h1, m, cfg)
  }

  class IctStrategy {
    const cfg: IctConfig
    const sessions: Sessions
    var h1Snapshots: Cache

    constructor (cfg: IctConfig, sessions: Sessions)
      requires cfg.Valid()
      ensures this.cfg == cfg && this.sessions == sessions && h1Snapshots == map[]
    {
      this.cfg := cfg;
      this.sessions := sessions;
      h1Snapshots := map[];
    }

    /** Build the snapshot of a prefix, or reuse the one cached under its last candle time. */
    method SnapshotOf(h1: seq<Candle>, n: nat) returns (snap: Option<H1Snapshot>)
      requires cfg.Valid() && n <= |h1|
      modifies this
      ensures snap == Lookup(old(h1Snapshots), h1, n, cfg)
      ensures h1Snapshots == if snap.Some? then old(h1Snapshots)[h1[n - 1].time := snap.value] else old(h1Snapshots)
    {
      hide BuildH1Snapshot;
      if n == 0 {
        return None;
      }
      var key := h1[n - 1].time;
      if key in h1Snapshots {
        assert h1Snapshots == h1Snapshots[key := h1Snapshots[key]];
        return Some(h1Snapshots[key]);
      }
      snap := BuildH1Snapshot(h1[..n], cfg);
      if snap.Some? {
        h1Snapshots := h1Snapshots[key := snap.value];
      }
    }

    /** The memoised replay: snapshots are looked up only when a new H1 or H4 candle has closed, and
        those no candle of this run used are evicted. */
    method Run(h: History) returns (signals: seq<Signal>)
      requires cfg.Valid() && |h.m5| >= MarketStructure.ATR_PERIOD
      requires Increasing(h.h1) && Increasing(h.h4)
      modifies this
      ensures signals == MemoReplay(h, cfg, sessions, old(h1Snapshots), |h.m5|).1
      ensures h1Snapshots == CacheAfter(h, cfg, old(h1Snapshots))
    {
      hide BuildH4Snapshot, Advance, OpenedBy, MemoReplay, Increasing, Lookup, UsedBelow;
      ghost var cache := h1Snapshots;
      NothingUsed(h, cfg, sessions, cache);
      signals := [];
      var tracker := new M5Tracker(cfg);
      var atr := Indicators.Atr(h.m5, MarketStructure.ATR_PERIOD);
      var h1Snap: Option<H1Snapshot>, h4Snap: Option<H4Snapshot> := None, None;
      var prevH1, prevH4 := -1, -1;
      var used: set<int> := {};
      for i := 0 to |h.m5|
        invariant fresh(tracker) && tracker.cfg == cfg
        invariant (tracker.State(), signals) == MemoReplay(h, cfg, sessions, cache, i)
        invariant -1 <= prevH1 <= |h.h1| && -1 <= prevH4 <= |h.h4|
        invariant prevH1 >= 0 ==> h1Snap == Lookup(cache, h.h1, prevH1, cfg)
        invariant prevH1 > 0 && h1Snap.Some? ==> h.h1[prevH1 - 1].time in used
        invariant prevH4 >= 0 ==> h4Snap == BuildH4Snapshot(h.h4[..prevH4], cfg)
        invariant SameLookups(h1Snapshots, cache, h.h1, cfg)
        invariant used == UsedBelow(h, cfg, cache, i) && Held(h, h1Snapshots, used)
      {
        var c := h.m5[i];
        var hi := BisectRight(h.h1, c.time - H1_MINUTES);
        var h4i := BisectRight(h.h4, c.time - H4_MINUTES);
        MemoStep(h, cfg, sessions, cache, i);
        if hi != prevH1 {
          StillSame(h1Snapshots, cache, h.h1, hi, cfg);
          h1Snap := SnapshotOf(h.h1, hi);
          if h1Snap.Some? {
            HasCandles(cache, h.h1, hi, cfg);
            used := used + {h.h1[hi - 1].time};
          }
          prevH1 := hi;
        } else {
          HasCandles(cache, h.h1, hi, cfg);
        }
        if h4i != prevH4 {
          h4Snap := BuildH4Snapshot(h.h4[..h4i], cfg);
          prevH4 := h4i;
        }
        if h1Snap.Some? && h4Snap.Some? {
          var new_ := tracker.AdvanceCandle(Tick(c, atr.value[i], h1Snap.value, h4Snap.value, sessions(c.time)));
          signals := signals + new_;
        }
      }
      Evicted(h, cfg, cache, h1Snapshots, used);
      h1Snapshots := map k | k in h1Snapshots && k in used :: h1Snapshots[k];
    }

    method GenerateSignals(h: History) returns (signals: seq<Signal>)
      requires cfg.Valid() && Increasing(h.h1) && Increasing(h.h4)
      modifies this
      ensures signals == MemoGenerate(h, cfg, sessions, old(h1Snapshots))
      ensures h1Snapshots == NextCache(h, cfg, old(h1Snapshots))
    {
      hide MemoReplay, CacheAfter;
      if |h.m5| < 100 || |h.h1| < 40 || |h.h4| < 20 {
        return [];
      }
      signals := Run(h);
    }
  }

  /** Every used key is cached, and is the time of some H1 candle. */
  ghost predicate Held(h: History, cache: Cache, used: set<int>) {
    forall k :: k in used ==> k in cache && exists n :: 0 < n <= |h.h1| && EndsAt(h.h1, n, k)
  }

  predicate EndsAt(h1: seq<Candle>, n: nat, key: int)
    requires 0 < n <= |h1|
  {
    h1[n - 1].time == key
  }

  lemma NothingUsed(h: History, cfg: IctConfig, sessions: Sessions, cache: Cache)
    requires cfg.Valid()
    ensures MemoReplay(h, cfg, sessions, cache, 0) == (Fresh(), []) && UsedBelow(h, cfg, cache, 0) == {}
  {
  }

  lemma HasCandles(cache: Cache, h1: seq<Candle>, n: nat, cfg: IctConfig)
    requires cfg.Valid() && n <= |h1|
    ensures Lookup(cache, h1, n, cfg).Some? ==> n > 0 && EndsAt(h1, n, h1[n - 1].time)
  {
  }

  lemma MemoStep(h: History, cfg: IctConfig, sessions: Sessions, cache: Cache, i: nat)
    requires cfg.Valid() && i < |h.m5|
    ensures var (t, signals) := MemoReplay(h, cfg, sessions, cache, i);
      MemoReplay(h, cfg, sessions, cache, i + 1)
      == match MemoTick(h, cfg, sessions, cache, i)
         case None => (t, signals)
         case Some(tick) => var (t', new_) := Advance(cfg, t, tick); (t', signals + new_)
    ensures var cut := CutAt(h, i);
      UsedBelow(h, cfg, cache, i + 1)
      == UsedBelow(h, cfg, cache, i)
         + (if cut > 0 && Lookup(cache, h.h1, cut, cfg).Some? then {h.h1[cut - 1].time} else {})
  {
    hide MemoTick, Advance, Lookup;
  }

  lemma StillSame(now: Cache, cache: Cache, h1: seq<Candle>, n: nat, cfg: IctConfig)
    requires cfg.Valid() && Increasing(h1) && n <= |h1| && SameLookups(now, cache, h1, cfg)
    ensures Lookup(now, h1, n, cfg) == Lookup(cache, h1, n, cfg)
    ensures var snap := Lookup(now, h1, n, cfg);
      snap.Some? ==> n > 0 && SameLookups(now[h1[n - 1].time := snap.value], cache, h1, cfg)
  {
    hide BuildH1Snapshot;
    var snap := Lookup(now, h1, n, cfg);
    if snap.Some? {
      forall m: nat | m <= |h1|
        ensures Lookup(now[h1[n - 1].time := snap.value], h1, m, cfg) == Lookup(cache, h1, m, cfg)
      {
        CachingKeepsLookups(now, h1, n, m, cfg);
      }
    }
  }

  lemma Evicted(h: History, cfg: IctConfig, cache: Cache, now: Cache, used: set<int>)
    requires cfg.Valid() && Increasing(h.h1) && SameLookups(now, cache, h.h1, cfg)
    requires used == UsedBelow(h, cfg, cache, |h.m5|) && Held(h, now, used)
    ensures (map k | k in now && k in used :: now[k]) == CacheAfter(h, cfg, cache)
  {
    hide BuildH1Snapshot;
    forall k | k in used
      ensures k in now && ValueOf(h, cfg, cache, k) == Some(now[k])
    {
      var n :| 0 < n <= |h.h1| && EndsAt(h.h1, n, k);
      PrefixOfKey(h.h1, n);
      assert Lookup(now, h.h1, n, cfg) == Lookup(cache, h.h1, n, cfg);
    }
  }
}
