/** A provider that returns the newest rows only (services/strategy/engine.py): once its oldest row
    falls out, the cached snapshot of an H1 candle is no longer the one its own history gives. */
module SlidingWindow {
  import opened Prelude
  import opened Indicators
  import opened Structure
  import opened MarketStructure
  import opened IctSnapshot
  import opened IctReplay
  import opened IctCache
  import opened CacheTransparency

  /** Sixty-two flat hours but for one spike, whose ATR is the first there is, and a late breakout. */
  function Row(i: nat): Candle {
    if i == 13 then Candle(60 * i, 1.0, 2.0, 1.0, 1.0)
    else if i == 59 then Candle(60 * i, 1.0, 3.0, 1.0, 3.0)
    else if i < 59 then Candle(60 * i, 1.0, 1.0, 1.0, 1.0)
    else Candle(60 * i, 3.0, 3.0, 3.0, 3.0)
  }

  function Rows(from: nat, to: nat): (cs: seq<Candle>)
    requires from <= to
    ensures |cs| == to - from && forall j :: 0 <= j < |cs| ==> cs[j] == Row(from + j)
  {
    seq(to - from, i requires 0 <= i < to - from => Row(from + i))
  }

  /** The sixty-one newest rows before and after row 61 arrives. */
  function CallAt(k: nat): History {
    History(seq(100, i requires 0 <= i < 100 => Candle(3160 + 5 * i, 3.0, 3.0, 3.0, 3.0)), Rows(k, k + 61),
            seq(20, i requires 0 <= i < 20 => Candle(240 * i, 1.0, 1.0, 1.0, 1.0)))
  }

  lemma RowsValid(from: nat, to: nat)
    requires from <= to
    ensures ValidCandles(Rows(from, to)) && Increasing(Rows(from, to))
  {
  }

  // ---------- the two prefixes ----------

  lemma {:induction false} FlatSum(cs: seq<Candle>, n: nat)
    requires n <= 13 && cs == Rows(0, 60)
    ensures SumTrueRange(cs, n) == 0.0
  {
    if n > 0 {
      FlatSum(cs, n - 1);
      assert TrueRange(cs, n - 1) == 0.0;
    }
  }

  lemma FirstAtr(cs: seq<Candle>)
    requires cs == Rows(0, 60)
    ensures AtrAt(cs, ATR_PERIOD, 13) == Some(1.0 / 14.0)
  {
    FlatSum(cs, 13);
    assert TrueRange(cs, 13) == 1.0;
    assert SumTrueRange(cs, 14) == SumTrueRange(cs, 13) + TrueRange(cs, 13);
    assert Wilder(cs, 14, 13) == Mean(1.0, 14);
  }

  /** Nothing but the spike is a peak, and nothing is a trough. */
  lemma OnlySpike(from: nat, i: nat)
    requires from <= 1 && 2 <= i && i + 2 < 60 - from
    ensures Peak(Highs(Rows(from, 60)), i) <==> from + i == 13
    ensures !Trough(Lows(Rows(from, 60)), i)
  {
    var cs := Rows(from, 60);
    assert forall j: nat :: j < 59 - from ==> Lows(cs)[j] == 1.0 && Highs(cs)[j] == if from + j == 13 then 2.0 else 1.0;
  }

  /** A history with one swing of a kind, or none, has that one pivot, or none. */
  lemma SolePivot(kind: Kind, highs: seq<real>, lows: seq<real>, atr: seq<Option<real>>, floorMult: real, m: nat, ps: seq<Pivot>,
                  only: Option<nat>)
    requires |highs| == |lows| == |atr| && m + 2 <= |highs| && PivotsOf(kind, highs, lows, atr, floorMult, m, ps)
    requires forall i: nat | 2 <= i < m :: IsSwing(kind, highs, lows, atr, floorMult, i) <==> only == Some(i)
    requires only.Some? ==> 2 <= only.value < m
    ensures ps == match only
      case Some(i) => [Pivot(i, (if kind == High then highs else lows)[i])]
      case None => []
  {
    hide IsSwing;
    FirstPivots(ps);
    if only.Some? {
      assert IsSwing(kind, highs, lows, atr, floorMult, only.value);
    }
  }

  lemma FirstPivots(ps: seq<Pivot>)
    requires Sorted(ps)
    ensures |ps| > 0 ==> ps[0] in ps
    ensures |ps| > 1 ==> ps[0].idx < ps[1].idx
  {
  }

  lemma PivotsOfRows(from: nat, floorMult: real, kind: Kind)
    requires from <= 1 && floorMult <= 14.0
    ensures PivotsIn(Rows(from, 60), floorMult, kind) == if kind == High && from == 0 then [Pivot(13, 2.0)] else []
  {
    var cs := Rows(from, 60);
    var highs, lows, atr := Highs(cs), Lows(cs), AtrArray(cs, ATR_PERIOD);
    var m, ps := |cs| - 2, PivotsIn(cs, floorMult, kind);
    SwingsArePivots(kind, highs, lows, atr, floorMult, m);
    hide IsSwing, AtrArray;
    var only := if kind == High && from == 0 then Some(13) else None;
    forall i: nat | 2 <= i < m
      ensures IsSwing(kind, highs, lows, atr, floorMult, i) <==> only == Some(i)
    {
      SpikeIsSwingIff(from, floorMult, kind, i);
    }
    assert from == 0 ==> highs[13] == 2.0;
    SolePivot(kind, highs, lows, atr, floorMult, m, ps, only);
  }

  /** Without its oldest row the spike comes before the first ATR, so it is no swing. */
  lemma SpikeIsSwingIff(from: nat, floorMult: real, kind: Kind, i: nat)
    requires from <= 1 && floorMult <= 14.0 && 2 <= i && i + 2 < 60 - from
    ensures var cs := Rows(from, 60);
      IsSwing(kind, Highs(cs), Lows(cs), AtrArray(cs, ATR_PERIOD), floorMult, i) <==> (kind == High && from == 0 && i == 13)
  {
    OnlySpike(from, i);
    var cs := Rows(from, 60);
    if kind == High && from + i == 13 {
      if from == 0 {
        FirstAtr(cs);
        assert Highs(cs)[13] == 2.0 && WindowMax(Lows(cs), 13) == 1.0;
      } else {
        assert AtrArray(cs, ATR_PERIOD)[12] == None;
      }
    }
  }

  lemma BreakoutBreaks()
    ensures Breaks(Bull, Closes(Rows(0, 60)), [Pivot(13, 2.0)], 59)
  {
  }

  /** The full window sees the breakout; the shortened one sees no structure at all. */
  lemma BiasOfRows(from: nat, floorMult: real)
    requires from <= 1 && floorMult <= 14.0
    ensures Bias(BosOf(Rows(from, 60), floorMult)) == if from == 0 then Some(Long) else None
  {
    var cs := Rows(from, 60);
    var bos, highs, lows := BosOf(cs, floorMult), PivotsIn(cs, floorMult, High), PivotsIn(cs, floorMult, Low);
    PivotsOfRows(from, floorMult, High);
    PivotsOfRows(from, floorMult, Low);
    assert bos == EventsBelow(Closes(cs), highs, lows, |cs|);
    hide PivotsIn, EventsBelow, EventAt, BosOf;
    assert bos != [] ==> bos[|bos| - 1] in bos;
    forall e | e in bos
      ensures e.side == Bull && from == 0
    {
      EventsMembers(Closes(cs), highs, lows, |cs|, e);
      NoEventWithoutPivots(e.side, Closes(cs), if e.side == Bull then highs else lows, e.idx);
    }
    if from == 0 {
      BreakoutBreaks();
      BosClosedForm(Closes(cs), highs, lows, Bull, 59);
      assert bos != [];
    }
  }

  lemma NoEventWithoutPivots(side: Side, closes: seq<real>, ps: seq<Pivot>, i: nat)
    requires Sorted(ps) && i < |closes| && EventAt(side, closes, ps, i) != []
    ensures ps != []
  {
  }

  // ---------- the two calls ----------

  lemma LastCut(k: nat)
    requires k <= 1
    ensures CutAt(CallAt(k), 99) == 60 - k && PrefixAt(CallAt(k), 99) == Rows(k, 60)
    ensures CallAt(k).h1[60 - k - 1].time == 3540 && Increasing(CallAt(k).h1)
  {
    var h := CallAt(k);
    RowsValid(k, k + 61);
    assert h.h1[60 - k - 1] == Row(59) && h.h1[60 - k] == Row(60);
    OpenedByIs(h.h1, h.m5[99].time - H1_MINUTES, 60 - k);
  }

  lemma SnapshotBias(cs: seq<Candle>, cfg: IctConfig)
    requires cfg.Valid() && |cs| >= 40
    ensures BuildH1Snapshot(cs, cfg).Some? && BuildH1Snapshot(cs, cfg).value.bias == Bias(BosOf(cs, cfg.swingFloorAtr))
  {
    hide PivotsIn, BosOf, LiquidityLevels, Standing, LimitsOf;
  }

  /** Once the oldest row has fallen out, the second call is handed the first call's bullish snapshot
      for an H1 candle whose own history shows no structure: newest rows only is not consistent. */
  lemma NewestRowsAreStale(cfg: IctConfig)
    requires cfg.Valid() && cfg.swingFloorAtr <= 14.0
    ensures var calls := [CallAt(0), CallAt(1)];
      var h, cut := CallAt(1), CutAt(CallAt(1), 99);
      var handed, own := Lookup(CacheBefore(calls, cfg, 1), h.h1, cut, cfg), BuildH1Snapshot(PrefixAt(h, 99), cfg);
      && handed.Some? && own.Some?
      && handed.value.bias == Some(Long) && own.value.bias == None
      && !ConsistentAt(calls, cfg, 1) && !TransparentAt(calls, cfg, 1)
  {
    LastCut(0);
    LastCut(1);
    BiasOfRows(0, cfg.swingFloorAtr);
    BiasOfRows(1, cfg.swingFloorAtr);
    SnapshotBias(Rows(0, 60), cfg);
    SnapshotBias(Rows(1, 60), cfg);
    CallsAreLong();
    hide BuildH1Snapshot, CutAt, Rows, CallAt, Enough, CacheBefore, ConsistentAt, TransparentAt, BosOf, Bias;
    HandedTheOther(CallAt(0), CallAt(1), cfg, 99, 99);
  }

  lemma CallsAreLong()
    ensures forall k :: 0 <= k <= 1 ==> Enough(CallAt(k)) && |CallAt(k).m5| == 100
  {
  }
}
