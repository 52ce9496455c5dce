/** The ICT replay: M5 candles against higher-timeframe snapshots (services/strategy/ict.py,
    `ICTStrategy`). */
module IctReplay {
  import opened Prelude
  import opened IctSnapshot
  import opened IctTracker
  import Indicators
  import MarketStructure

  /** Which candle times fall into a configured trading session. */
  type Sessions = int -> bool

  ghost predicate Increasing(cs: seq<Candle>) {
    forall i, j :: 0 <= i < j < |cs| ==> cs[i].time < cs[j].time
  }

  /** `bisect_right` on the open times: how many candles opened at or before `t`. */
  function OpenedBy(cs: seq<Candle>, t: int): (n: nat)
    ensures n <= |cs|
  {
    if cs == [] then 0 else if cs[|cs| - 1].time <= t then |cs| else OpenedBy(cs[..|cs| - 1], t)
  }

  /** Python's `bisect_right`, searched by halving. */
  method BisectRight(cs: seq<Candle>, t: int) returns (n: nat)
    requires Increasing(cs)
    ensures n == OpenedBy(cs, t)
  {
    var lo, hi := 0, |cs|;
    while lo < hi
      invariant 0 <= lo <= hi <= |cs|
      invariant lo > 0 ==> cs[lo - 1].time <= t
      invariant hi < |cs| ==> cs[hi].time > t
    {
      var mid := (lo + hi) / 2;
      if t < cs[mid].time {
        hi := mid;
      } else {
        lo := mid + 1;
      }
    }
    OpenedByIs(cs, t, lo);
    return lo;
  }

  lemma {:induction false} OpenedByIff(cs: seq<Candle>, t: int)
    requires Increasing(cs)
    ensures forall i :: 0 <= i < |cs| ==> (i < OpenedBy(cs, t) <==> cs[i].time <= t)
  {
    if cs != [] && cs[|cs| - 1].time > t {
      OpenedByIff(cs[..|cs| - 1], t);
    }
  }

  lemma OpenedByIs(cs: seq<Candle>, t: int, n: nat)
    requires Increasing(cs) && n <= |cs|
    requires (n > 0 ==> cs[n - 1].time <= t) && (n < |cs| ==> cs[n].time > t)
    ensures OpenedBy(cs, t) == n
  {
    OpenedByIff(cs, t);
    assert n < |cs| ==> !(n < OpenedBy(cs, t));
    assert n > 0 ==> n - 1 < OpenedBy(cs, t);
  }

  const H1_MINUTES := 60
  const H4_MINUTES := 240

  /** The H1 candles that have closed when the M5 candle opens. */
  function ClosedH1(h1: seq<Candle>, t: int): seq<Candle> {
    h1[..OpenedBy(h1, t - H1_MINUTES)]
  }

  function ClosedH4(h4: seq<Candle>, t: int): seq<Candle> {
    h4[..OpenedBy(h4, t - H4_MINUTES)]
  }

  datatype History = History(m5: seq<Candle>, h1: seq<Candle>, h4: seq<Candle>)

  function TickAt(h: History, cfg: IctConfig, sessions: Sessions, i: nat): Option<Tick>
    requires cfg.Valid() && i < |h.m5|
  {
    var c := h.m5[i];
    var h1 := BuildH1Snapshot(ClosedH1(h.h1, c.time), cfg);
    var h4 := BuildH4Snapshot(ClosedH4(h.h4, c.time), cfg);
    if h1.None? || h4.None? then None
    else Some(Tick(c, Indicators.AtrAt(h.m5, MarketStructure.ATR_PERIOD, i), h1.value, h4.value, sessions(c.time)))
  }

  /** The tracker and the signals after the first `n` M5 candles, every snapshot recomputed. */
  function Replay(h: History, cfg: IctConfig, sessions: Sessions, n: nat): (Tracker, seq<Signal>)
    requires cfg.Valid() && n <= |h.m5|
  {
    if n == 0 then (Fresh(), [])
    else
      var (t, signals) := Replay(h, cfg, sessions, n - 1);
      match TickAt(h, cfg, sessions, n - 1)
      case None => (t, signals)
      case Some(tick) => var (t', new_) := Advance(cfg, t, tick); (t', signals + new_)
  }

  /** `generate_signals`: too little history yields no signal. */
  function Generate(h: History, cfg: IctConfig, sessions: Sessions): seq<Signal>
    requires cfg.Valid()
  {
    if |h.m5| < 100 || |h.h1| < 40 || |h.h4| < 20 then [] else Replay(h, cfg, sessions, |h.m5|).1
  }

  /** The first `n` candles are those that have closed by `t`, each `minutes` after it opened. */
  ghost predicate ClosedBy(cs: seq<Candle>, t: int, minutes: int, n: nat) {
    n <= |cs| && forall j :: 0 <= j < |cs| ==> (j < n <==> cs[j].time + minutes <= t)
  }

  /** An evaluation sees its candle, the ATR of fourteen candles there, and the snapshots of the hours
      and of the four hours that have closed when its candle opens; there is none while either
      snapshot is missing. */
  lemma TickIs(h: History, cfg: IctConfig, sessions: Sessions, i: nat, m: nat, n: nat)
    requires cfg.Valid() && i < |h.m5| && Increasing(h.h1) && Increasing(h.h4)
    requires ClosedBy(h.h1, h.m5[i].time, 60, m) && ClosedBy(h.h4, h.m5[i].time, 240, n)
    ensures match TickAt(h, cfg, sessions, i)
      case None => BuildH1Snapshot(h.h1[..m], cfg).None? || BuildH4Snapshot(h.h4[..n], cfg).None?
      case Some(tick) =>
        && Some(tick.h1) == BuildH1Snapshot(h.h1[..m], cfg) && Some(tick.h4) == BuildH4Snapshot(h.h4[..n], cfg)
        && tick.candle == h.m5[i] && tick.atr == Indicators.AtrArray(h.m5, 14)[i] && tick.inSession == sessions(h.m5[i].time)
  {
    hide BuildH1Snapshot, BuildH4Snapshot;
    ClosedIs(h.h1, h.m5[i].time, 60, m);
    ClosedIs(h.h4, h.m5[i].time, 240, n);
  }

  lemma ClosedIs(cs: seq<Candle>, t: int, minutes: int, n: nat)
    requires Increasing(cs) && ClosedBy(cs, t, minutes, n)
    ensures OpenedBy(cs, t - minutes) == n
  {
    OpenedByIs(cs, t - minutes, n);
  }

  /** What the strategy generates are the signals of the replay, from a hundred M5, forty H1 and
      twenty H4 candles on; each of them was given on an evaluation. */
  lemma {:induction false} GeneratedOn(h: History, cfg: IctConfig, sessions: Sessions, n: nat, g: Signal)
    requires cfg.Valid() && n <= |h.m5|
    ensures g in Replay(h, cfg, sessions, n).1 <==> exists i :: 0 <= i < n && GivenOn(h, cfg, sessions, i, g)
    ensures |h.m5| < 100 || |h.h1| < 40 || |h.h4| < 20 ==> Generate(h, cfg, sessions) == []
    ensures |h.m5| >= 100 && |h.h1| >= 40 && |h.h4| >= 20 ==> Generate(h, cfg, sessions) == Replay(h, cfg, sessions, |h.m5|).1
  {
    hide TickAt, Advance;
    if n > 0 {
      GeneratedOn(h, cfg, sessions, n - 1, g);
      assert g in Replay(h, cfg, sessions, n).1 <==> g in Replay(h, cfg, sessions, n - 1).1 || GivenOn(h, cfg, sessions, n - 1, g);
    }
  }

  ghost predicate GivenOn(h: History, cfg: IctConfig, sessions: Sessions, i: nat, g: Signal)
    requires cfg.Valid() && i < |h.m5|
  {
    var tick := TickAt(h, cfg, sessions, i);
    tick.Some? && g in Advance(cfg, Replay(h, cfg, sessions, i).0, tick.value).1
  }

  // ---------- no lookahead ----------

  /** `later` extends `h`: more M5 candles, and more H1 and H4 candles, none of which had closed
      at the last M5 candle of `h`. */
  ghost predicate Extends(h: History, later: History) {
    && h.m5 <= later.m5 && h.h1 <= later.h1 && h.h4 <= later.h4
    && Increasing(later.m5) && Increasing(later.h1) && Increasing(later.h4)
    && (h.m5 != [] ==>
          var t := h.m5[|h.m5| - 1].time;
          && (forall k :: |h.h1| <= k < |later.h1| ==> later.h1[k].time > t - H1_MINUTES)
          && (forall k :: |h.h4| <= k < |later.h4| ==> later.h4[k].time > t - H4_MINUTES))
  }

  lemma ClosedStays(cs: seq<Candle>, later: seq<Candle>, t: int)
    requires Increasing(later) && cs <= later
    requires forall k :: |cs| <= k < |later| ==> later[k].time > t
    ensures OpenedBy(later, t) == OpenedBy(cs, t) && later[..OpenedBy(later, t)] == cs[..OpenedBy(cs, t)]
  {
    OpenedByIff(cs, t);
    var n := OpenedBy(cs, t);
    assert n > 0 ==> cs[n - 1].time <= t && later[n - 1] == cs[n - 1];
    assert n < |cs| ==> cs[n].time > t && later[n] == cs[n];
    OpenedByIs(later, t, n);
  }

  lemma TickStays(h: History, later: History, cfg: IctConfig, sessions: Sessions, i: nat)
    requires cfg.Valid() && Extends(h, later) && i < |h.m5|
    ensures TickAt(h, cfg, sessions, i) == TickAt(later, cfg, sessions, i)
  {
    hide BuildH1Snapshot, BuildH4Snapshot;
    var t := h.m5[i].time;
    assert later.m5[i] == h.m5[i];
    assert t <= h.m5[|h.m5| - 1].time by {
      assert later.m5[|h.m5| - 1] == h.m5[|h.m5| - 1];
    }
    ClosedStays(h.h1, later.h1, t - H1_MINUTES);
    ClosedStays(h.h4, later.h4, t - H4_MINUTES);
    Indicators.AtrCausal(later.m5, MarketStructure.ATR_PERIOD, |h.m5|);
    assert later.m5[..|h.m5|] == h.m5;
    assert Indicators.AtrArray(h.m5, MarketStructure.ATR_PERIOD)[i]
        == Indicators.AtrArray(later.m5, MarketStructure.ATR_PERIOD)[i];
  }

  lemma {:induction false} ReplayStays(h: History, later: History, cfg: IctConfig, sessions: Sessions, n: nat)
    requires cfg.Valid() && Extends(h, later) && n <= |h.m5|
    ensures n <= |later.m5| && Replay(h, cfg, sessions, n) == Replay(later, cfg, sessions, n)
  {
    hide TickAt, Advance;
    if n > 0 {
      ReplayStays(h, later, cfg, sessions, n - 1);
      TickStays(h, later, cfg, sessions, n - 1);
    }
  }

  lemma {:induction false} SignalsGrow(h: History, cfg: IctConfig, sessions: Sessions, m: nat, n: nat)
    requires cfg.Valid() && m <= n <= |h.m5|
    ensures Replay(h, cfg, sessions, m).1 <= Replay(h, cfg, sessions, n).1
  {
    hide TickAt, Advance;
    if m < n {
      SignalsGrow(h, cfg, sessions, m, n - 1);
    }
  }

  /** No lookahead: whatever happens later, the signals already given stay, in order, in front. */
  lemma NoLookahead(h: History, later: History, cfg: IctConfig, sessions: Sessions)
    requires cfg.Valid() && Extends(h, later)
    ensures Generate(h, cfg, sessions) <= Generate(later, cfg, sessions)
  {
    hide Replay;
    ReplayStays(h, later, cfg, sessions, |h.m5|);
    SignalsGrow(later, cfg, sessions, |h.m5|, |later.m5|);
  }
}
