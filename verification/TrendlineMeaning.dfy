/** Trendlines in terms of their anchors alone (services/strategy/indicators.py): which wicks touch a
    line, which pairs of swings qualify, which neighbours carry a segment. */
module TrendlineMeaning {
  import opened Prelude
  import opened Structure
  import opened Trendlines

  /** The point (k, v) lies on the straight line through the two anchors. */
  ghost predicate OnLine(a: Pivot, b: Pivot, k: int, v: real) {
    (v - a.level) * (b.idx - a.idx) as real == (b.level - a.level) * (k - a.idx) as real
  }

  lemma SlopeOnLine(q: real, d: real, rise: real, run: real, gain: real)
    requires d > 0.0 && q * d == rise
    ensures gain * d == rise * run <==> gain == q * run
  {
    var along := q * run;
    assert along * d == rise * run by {
      assert along * d == q * d * run;
    }
    var off := gain - along;
    assert off * d == gain * d - along * d;
    assert off > 0.0 ==> off * d > 0.0;
    assert off < 0.0 ==> -off * d > 0.0;
  }

  lemma OnlyValue(a: Pivot, b: Pivot, k: int, v: real)
    requires a.idx < b.idx
    ensures OnLine(a, b, k, v) <==> v == LineValue(a.idx, a.level, Slope(a, b), k)
  {
    var d, q := (b.idx - a.idx) as real, Slope(a, b);
    assert q * d == b.level - a.level;
    SlopeOnLine(q, d, b.level - a.level, (k - a.idx) as real, v - a.level);
  }

  /** The wick of bar `k` is within the tolerance of the line through the anchors. */
  ghost predicate NearLine(wicks: seq<real>, a: Pivot, b: Pivot, tol: real, k: nat)
    requires k < |wicks|
  {
    forall v :: OnLine(a, b, k, v) ==> v - tol <= wicks[k] <= v + tol
  }

  lemma TouchedIff(wicks: seq<real>, a: Pivot, b: Pivot, tol: real, k: nat)
    requires a.idx < b.idx && k < |wicks|
    ensures Touched(wicks, a, Slope(a, b), tol, k) <==> NearLine(wicks, a, b, tol, k)
  {
    var v := LineValue(a.idx, a.level, Slope(a, b), k);
    hide OnLine, LineValue, Slope;
    OnlyValue(a, b, k, v);
    forall w | OnLine(a, b, k, w)
      ensures w == v
    {
      OnlyValue(a, b, k, w);
    }
  }

  /** The bars from the first anchor on, below `hi`, whose wick is near the line. */
  ghost function NearBars(wicks: seq<real>, a: Pivot, b: Pivot, tol: real, hi: nat): set<nat>
    requires hi <= |wicks|
  {
    set k: nat | a.idx <= k < hi && NearLine(wicks, a, b, tol, k)
  }

  /** The touches are the number of those bars, and the last touch the greatest. */
  lemma {:induction false} TouchesAre(wicks: seq<real>, a: Pivot, b: Pivot, tol: real, hi: nat)
    requires a.idx < b.idx && hi <= |wicks|
    ensures var bars := NearBars(wicks, a, b, tol, hi);
      && TouchCount(wicks, a, Slope(a, b), tol, hi) == |bars|
      && var last := LastTouch(wicks, a, Slope(a, b), tol, hi);
         if bars == {} then last == -1 else last >= 0 && last in bars && forall k :: k in bars ==> k <= last
  {
    hide Touched, NearLine, Slope;
    if hi > a.idx {
      TouchesAre(wicks, a, b, tol, hi - 1);
      TouchedIff(wicks, a, b, tol, hi - 1);
      var before, bars := NearBars(wicks, a, b, tol, hi - 1), NearBars(wicks, a, b, tol, hi);
      if NearLine(wicks, a, b, tol, hi - 1) {
        assert bars == before + {hi - 1};
      } else {
        assert bars == before;
      }
    } else {
      assert NearBars(wicks, a, b, tol, hi) == {};
    }
  }

  /** A pair of swings qualifies exactly when the line rises (support) or falls (resistance), enough
      wicks up to its second anchor are near it, and one of them is recent. */
  lemma CandidateIff(kind: LineKind, wicks: seq<real>, a: Pivot, b: Pivot, lim: Limits)
    requires a.idx < b.idx < |wicks|
    ensures var c, bars := Candidate(kind, wicks, a, b, lim), NearBars(wicks, a, b, lim.tol, b.idx + 1);
      && (c.Some? <==>
            && (if kind == Support then a.level < b.level else a.level > b.level)
            && |bars| >= lim.minTouches
            && ((exists k :: k in bars && k >= |wicks| - lim.recentBars) || -1 >= |wicks| - lim.recentBars))
      && (c.Some? ==> c.value.kind == kind && c.value.idx1 == a.idx && c.value.idx2 == b.idx && c.value.touches == |bars|
                      && forall k: int :: OnLine(a, b, k, ValueAt(c.value, k)))
  {
    TouchesAre(wicks, a, b, lim.tol, b.idx + 1);
    SlopeSign(a, b);
    forall k: int
      ensures OnLine(a, b, k, LineValue(a.idx, a.level, Slope(a, b), k))
    {
      OnlyValue(a, b, k, LineValue(a.idx, a.level, Slope(a, b), k));
    }
    hide Slope, OnLine, NearBars, TouchCount, LastTouch, LineValue;
  }

  /** No wick between the anchors lies beyond the tolerance on the wrong side of the line. */
  ghost predicate Clear(kind: LineKind, wicks: seq<real>, a: Pivot, b: Pivot, tol: real)
    requires b.idx < |wicks|
  {
    forall k: nat, v :: a.idx <= k <= b.idx && OnLine(a, b, k, v) ==>
      if kind == Support then wicks[k] >= v - tol else wicks[k] <= v + tol
  }

  /** Two neighbouring swings carry a segment exactly when it trends, is clear between its anchors and is
      touched often enough. */
  lemma SegmentExactlyWhen(kind: LineKind, wicks: seq<real>, a: Pivot, b: Pivot, tol: real, minTouches: int)
    requires a.idx < b.idx < |wicks|
    ensures Segment(kind, wicks, a, b, tol, minTouches) != []
       <==> && (if kind == Support then a.level < b.level else a.level > b.level)
            && Clear(kind, wicks, a, b, tol)
            && |NearBars(wicks, a, b, tol, b.idx + 1)| >= minTouches
  {
    TouchesAre(wicks, a, b, tol, b.idx + 1);
    SlopeSign(a, b);
    UnviolatedIff(kind, wicks, a, Slope(a, b), tol, b.idx + 1);
    ClearIff(kind, wicks, a, b, tol);
    hide Slope, NearBars, TouchCount, LastTouch, Violated, Unviolated, Clear;
  }

  lemma ClearIff(kind: LineKind, wicks: seq<real>, a: Pivot, b: Pivot, tol: real)
    requires a.idx < b.idx < |wicks|
    ensures Clear(kind, wicks, a, b, tol) <==> forall k :: a.idx <= k < b.idx + 1 ==> !Violated(kind, wicks, a, Slope(a, b), tol, k)
  {
    hide OnLine, LineValue, Slope;
    var slope := Slope(a, b);
    if Clear(kind, wicks, a, b, tol) {
      forall k | a.idx <= k < b.idx + 1
        ensures !Violated(kind, wicks, a, slope, tol, k)
      {
        OnlyValue(a, b, k, LineValue(a.idx, a.level, slope, k));
      }
    }
    if forall k :: a.idx <= k < b.idx + 1 ==> !Violated(kind, wicks, a, slope, tol, k) {
      forall k: nat, v | a.idx <= k <= b.idx && OnLine(a, b, k, v)
        ensures if kind == Support then wicks[k] >= v - tol else wicks[k] <= v + tol
      {
        OnlyValue(a, b, k, v);
        assert !Violated(kind, wicks, a, slope, tol, k);
      }
    }
  }

  /** The search is over the last swings, as many as the configuration allows (zero: all), and the lines are
      the best of either kind; below eight bars there are none. */
  lemma SearchedIs(highs: seq<real>, lows: seq<real>, swingHighs: seq<Pivot>, swingLows: seq<Pivot>, lim: Limits, maxSwings: nat)
    requires |highs| == |lows| && InRange(highs, swingHighs) && InRange(lows, swingLows)
    ensures var recent := LastSwings(swingLows, maxSwings);
      && |recent| <= |swingLows| && recent == swingLows[|swingLows| - |recent|..]
      && (if maxSwings == 0 || |swingLows| <= maxSwings then |recent| == |swingLows| else |recent| == maxSwings)
    ensures var lines := Detected(highs, lows, swingHighs, swingLows, lim, maxSwings);
      && (|highs| < 8 ==> lines == [])
      && (|highs| >= 8 ==> forall line ::
            line in lines <==> Some(line) == BestLine(Support, lows, swingLows, lim, maxSwings)
                               || Some(line) == BestLine(Resistance, highs, swingHighs, lim, maxSwings))
  {
    hide BestLine;
  }

  /** The chains are those of both kinds over all swings; below eight bars there are none. */
  lemma ChainedAre(highs: seq<real>, lows: seq<real>, swingHighs: seq<Pivot>, swingLows: seq<Pivot>, tol: real, minTouches: int)
    requires |highs| == |lows| && InRange(highs, swingHighs) && InRange(lows, swingLows)
    ensures var lines := Chained(highs, lows, swingHighs, swingLows, tol, minTouches);
      && (|highs| < 8 ==> lines == [])
      && (|highs| >= 8 ==> lines == ChainBelow(Support, lows, swingLows, tol, minTouches, |swingLows|)
                                    + ChainBelow(Resistance, highs, swingHighs, tol, minTouches, |swingHighs|))
  {
    hide ChainBelow;
  }
}
