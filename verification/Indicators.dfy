/** Wilder's Average True Range and the windowed mean (services/strategy/indicators.py). */
module Indicators {
  import opened Prelude

  function TrueRange(cs: seq<Candle>, i: nat): real
    requires i < |cs|
  {
    if i == 0 then cs[0].high - cs[0].low
    else
      var prev := cs[i - 1].close;
      Max(cs[i].high - cs[i].low, Max(Abs(cs[i].high - prev), Abs(cs[i].low - prev)))
  }

  function SumTrueRange(cs: seq<Candle>, n: nat): real
    requires n <= |cs|
  {
    if n == 0 then 0.0 else SumTrueRange(cs, n - 1) + TrueRange(cs, n - 1)
  }

  function Mean(sum: real, n: nat): real
    requires n >= 1
  {
    sum / n as real
  }

  function Smooth(previous: real, tr: real, period: nat): real
    requires period >= 1
  {
    (previous * (period - 1) as real + tr) / period as real
  }

  /** Wilder's smoothing, seeded with the plain mean of the first `period` true ranges. */
  function Wilder(cs: seq<Candle>, period: nat, i: nat): real
    requires 1 <= period <= i + 1 <= |cs|
  {
    if i + 1 == period then Mean(SumTrueRange(cs, period), period)
    else Smooth(Wilder(cs, period, i - 1), TrueRange(cs, i), period)
  }

  /** The value the ATR array holds at index `i`; `None` stands for NaN. */
  function AtrAt(cs: seq<Candle>, period: nat, i: nat): Option<real>
    requires period >= 1 && i < |cs|
  {
    if |cs| < 2 || i + 1 < period then None else Some(Wilder(cs, period, i))
  }

  function AtrArray(cs: seq<Candle>, period: nat): (r: seq<Option<real>>)
    requires period >= 1
    ensures |r| == |cs|
  {
    seq(|cs|, i requires 0 <= i < |cs| => AtrAt(cs, period, i))
  }

  /** Too short a history is all NaN, but one of 2 to `period - 1` candles writes past the
      end of the output array: numpy raises IndexError. */
  function AtrResult(cs: seq<Candle>, period: nat): Result<seq<Option<real>>>
    requires period >= 1
  {
    if 2 <= |cs| < period then Raised(IndexError) else Success(AtrArray(cs, period))
  }

  method Atr(cs: seq<Candle>, period: nat) returns (r: Result<seq<Option<real>>>)
    requires period >= 1
    ensures r == AtrResult(cs, period)
    ensures r.Success? && |cs| >= 2 ==> IsWilder(cs, period, r.value)
  {
    hide Mean, Smooth, IsWilder;
    var n := |cs|;
    var out: seq<Option<real>> := seq(n, _ => None);
    if n < 2 {
      assert out == AtrArray(cs, period);
      return Success(out);
    }
    var tr: seq<real> := [cs[0].high - cs[0].low];
    for i := 1 to n
      invariant |tr| == i
      invariant forall k :: 0 <= k < i ==> tr[k] == TrueRange(cs, k)
    {
      var prev := cs[i - 1].close;
      tr := tr + [Max(cs[i].high - cs[i].low, Max(Abs(cs[i].high - prev), Abs(cs[i].low - prev)))];
    }
    if period > n {
      return Raised(IndexError);
    }
    var sum := 0.0;
    for k := 0 to period
      invariant sum == SumTrueRange(cs, k)
    {
      sum := sum + tr[k];
    }
    out := out[period - 1 := Some(Mean(sum, period))];
    for i := period to n
      invariant |out| == n
      invariant forall k :: 0 <= k < i ==> out[k] == AtrAt(cs, period, k)
    {
      out := out[i := Some(Smooth(out[i - 1].value, tr[i], period))];
    }
    assert out == AtrArray(cs, period);
    AtrRecurrence(cs, period);
    return Success(out);
  }

  // ---------- what the ATR is, written out ----------

  ghost function Total(xs: seq<real>): real {
    if xs == [] then 0.0 else xs[0] + Total(xs[1..])
  }

  /** The largest of high - low, |high - previous close| and |low - previous close|. */
  ghost predicate IsRange(cs: seq<Candle>, i: nat, range: real)
    requires 1 <= i < |cs|
  {
    var high, low, prev := cs[i].high, cs[i].low, cs[i - 1].close;
    && range >= high - low && range >= high - prev && range >= prev - high && range >= low - prev && range >= prev - low
    && (range == high - low || range == high - prev || range == prev - high || range == low - prev || range == prev - low)
  }

  ghost predicate AreRanges(cs: seq<Candle>, ranges: seq<real>) {
    && |ranges| == |cs|
    && (cs != [] ==> ranges[0] == cs[0].high - cs[0].low)
    && forall i :: 1 <= i < |cs| ==> IsRange(cs, i, ranges[i])
  }

  ghost predicate Spread(mean: real, n: nat, total: real) {
    mean * n as real == total
  }

  /** The previous value counts `period - 1` times, the range once. */
  ghost predicate Weighs(next: real, period: nat, previous: real, range: real) {
    next * period as real == previous * period as real - previous + range
  }

  /** The loop writes past the end of its output exactly from two candles to one fewer than the period;
      with fewer than two candles every value is NaN. */
  lemma AtrRaisesIff(cs: seq<Candle>, period: nat)
    requires period >= 1
    ensures AtrResult(cs, period).Raised? <==> 2 <= |cs| <= period - 1
    ensures AtrResult(cs, period).Raised? ==> AtrResult(cs, period).error == IndexError
    ensures |cs| < 2 ==> AtrResult(cs, period).Success?
                         && forall i :: 0 <= i < |AtrResult(cs, period).value| ==> AtrResult(cs, period).value[i] == None
  {
  }

  /** The array is NaN up to the first full period, whose plain mean it then holds; each later value
      weighs the one before `period - 1` times and the candle's own range once. */
  ghost predicate IsWilder(cs: seq<Candle>, period: nat, a: seq<Option<real>>)
    requires 1 <= period <= |cs|
  {
    && |a| == |cs|
    && (forall i :: 0 <= i < period - 1 ==> a[i] == None)
    && (forall i :: period - 1 <= i < |cs| ==> a[i].Some?)
    && exists ranges: seq<real> ::
         && AreRanges(cs, ranges)
         && Spread(a[period - 1].value, period, Total(ranges[..period]))
         && forall i :: period <= i < |cs| ==> Weighs(a[i].value, period, a[i - 1].value, ranges[i])
  }

  lemma {:induction false} TotalSnoc(xs: seq<real>, x: real)
    ensures Total(xs + [x]) == Total(xs) + x
  {
    if xs == [] {
      assert [] + [x] == [x];
    } else {
      assert (xs + [x])[1..] == xs[1..] + [x];
      TotalSnoc(xs[1..], x);
    }
  }

  ghost function TrueRanges(cs: seq<Candle>): (ranges: seq<real>)
    ensures |ranges| == |cs|
  {
    seq(|cs|, i requires 0 <= i < |cs| => TrueRange(cs, i))
  }

  lemma {:induction false} SumIsTotal(cs: seq<Candle>, n: nat)
    requires n <= |cs|
    ensures SumTrueRange(cs, n) == Total(TrueRanges(cs)[..n])
  {
    hide TrueRange;
    if n > 0 {
      SumIsTotal(cs, n - 1);
      TotalSnoc(TrueRanges(cs)[..n - 1], TrueRange(cs, n - 1));
      assert TrueRanges(cs)[..n] == TrueRanges(cs)[..n - 1] + [TrueRange(cs, n - 1)];
    }
  }

  lemma TimesBack(x: real, y: real)
    requires y != 0.0
    ensures x / y * y == x
  {
  }

  lemma RangesAre(cs: seq<Candle>)
    ensures AreRanges(cs, TrueRanges(cs))
  {
  }

  lemma SmoothWeighs(previous: real, tr: real, period: nat)
    requires period >= 1
    ensures Weighs(Smooth(previous, tr, period), period, previous, tr)
  {
    var p := period as real;
    assert (period - 1) as real == p - 1.0;
    assert previous * (p - 1.0) == previous * p - previous;
    TimesBack(previous * (period - 1) as real + tr, p);
  }

  lemma MeanSpreads(sum: real, n: nat)
    requires n >= 1
    ensures Spread(Mean(sum, n), n, sum)
  {
    TimesBack(sum, n as real);
  }

  lemma AtrRecurrence(cs: seq<Candle>, period: nat)
    requires 1 <= period <= |cs| && |cs| >= 2
    ensures IsWilder(cs, period, AtrArray(cs, period))
  {
    var a, ranges := AtrArray(cs, period), TrueRanges(cs);
    RangesAre(cs);
    hide TrueRange, Total, AreRanges, Smooth, Mean, Spread, Weighs;
    SumIsTotal(cs, period);
    MeanSpreads(SumTrueRange(cs, period), period);
    forall i | period <= i < |cs|
      ensures Weighs(a[i].value, period, a[i - 1].value, ranges[i])
    {
      SmoothWeighs(Wilder(cs, period, i - 1), TrueRange(cs, i), period);
    }
  }

  lemma {:induction false} SumTrueRangeCausal(cs: seq<Candle>, k: nat, n: nat)
    requires n <= k <= |cs|
    ensures SumTrueRange(cs[..k], n) == SumTrueRange(cs, n)
  {
    if n > 0 {
      SumTrueRangeCausal(cs, k, n - 1);
    }
  }

  lemma {:induction false} WilderCausal(cs: seq<Candle>, period: nat, k: nat, i: nat)
    requires 1 <= period <= i + 1 <= k <= |cs|
    ensures Wilder(cs[..k], period, i) == Wilder(cs, period, i)
  {
    hide Mean, Smooth;
    if i + 1 == period {
      SumTrueRangeCausal(cs, k, period);
    } else {
      WilderCausal(cs, period, k, i - 1);
    }
  }

  /** The ATR array of a prefix is the prefix of the ATR array: no value looks ahead. */
  lemma AtrCausal(cs: seq<Candle>, period: nat, k: nat)
    requires 2 <= period && k <= |cs|
    ensures AtrArray(cs[..k], period) == AtrArray(cs, period)[..k]
  {
    forall i | 0 <= i < k
      ensures AtrAt(cs[..k], period, i) == AtrAt(cs, period, i)
    {
      if i + 1 >= period {
        WilderCausal(cs, period, k, i);
      }
    }
  }

  lemma ScaleBounds(x: real, s: real, lo: real, hi: real)
    requires lo <= x <= hi && s >= 0.0
    ensures lo * s <= x * s <= hi * s
  {
  }

  lemma {:induction false} MeanBounds(cs: seq<Candle>, n: nat, lo: real, hi: real)
    requires n <= |cs|
    requires forall j :: 0 <= j < n ==> lo <= TrueRange(cs, j) <= hi
    ensures lo * n as real <= SumTrueRange(cs, n) <= hi * n as real
  {
    hide TrueRange;
    if n > 0 {
      MeanBounds(cs, n - 1, lo, hi);
      var m := (n - 1) as real;
      assert n as real == m + 1.0;
      assert lo * (m + 1.0) == lo * m + lo && hi * (m + 1.0) == hi * m + hi;
    }
  }

  lemma DivideBounds(x: real, d: real, lo: real, hi: real)
    requires d > 0.0 && lo * d <= x <= hi * d
    ensures lo <= x / d <= hi
  {
    var q := x / d;
    assert q * d == x;
    assert q < lo ==> (lo - q) * d > 0.0;
    assert hi < q ==> (q - hi) * d > 0.0;
  }

  lemma MeanWithin(sum: real, n: nat, lo: real, hi: real)
    requires n >= 1 && lo * n as real <= sum <= hi * n as real
    ensures lo <= Mean(sum, n) <= hi
  {
    DivideBounds(sum, n as real, lo, hi);
  }

  lemma WeightedMeanWithin(previous: real, tr: real, p: real, lo: real, hi: real)
    requires p >= 0.0 && lo <= previous <= hi && lo <= tr <= hi
    ensures lo <= (previous * p + tr) / (p + 1.0) <= hi
  {
    ScaleBounds(previous, p, lo, hi);
    OneMore(lo, p);
    OneMore(hi, p);
    DivideBounds(previous * p + tr, p + 1.0, lo, hi);
  }

  lemma OneMore(x: real, p: real)
    ensures x * (p + 1.0) == x * p + x
  {
  }

  lemma SmoothWithin(previous: real, tr: real, period: nat, lo: real, hi: real)
    requires period >= 1 && lo <= previous <= hi && lo <= tr <= hi
    ensures lo <= Smooth(previous, tr, period) <= hi
  {
    WeightedMeanWithin(previous, tr, (period - 1) as real, lo, hi);
    assert (period - 1) as real + 1.0 == period as real;
  }

  /** Every ATR value is a weighted mean of the true ranges seen so far, so it stays between
      their bounds. */
  lemma {:induction false} AtrBounds(cs: seq<Candle>, period: nat, i: nat, lo: real, hi: real)
    requires 1 <= period <= i + 1 <= |cs|
    requires forall j :: 0 <= j <= i ==> lo <= TrueRange(cs, j) <= hi
    ensures lo <= Wilder(cs, period, i) <= hi
  {
    hide Smooth, Mean, TrueRange;
    if i + 1 == period {
      MeanBounds(cs, period, lo, hi);
      MeanWithin(SumTrueRange(cs, period), period, lo, hi);
    } else {
      AtrBounds(cs, period, i - 1, lo, hi);
      SmoothWithin(Wilder(cs, period, i - 1), TrueRange(cs, i), period, lo, hi);
    }
  }

  /** On valid candles the ATR is never negative. */
  lemma AtrNonNegative(cs: seq<Candle>, period: nat, i: nat)
    requires ValidCandles(cs) && period >= 1 && i < |cs|
    ensures AtrAt(cs, period, i).Some? ==> AtrAt(cs, period, i).value >= 0.0
  {
    if AtrAt(cs, period, i).Some? {
      var hi := MaxTrueRange(cs, i);
      forall j | 0 <= j <= i
        ensures 0.0 <= TrueRange(cs, j)
      {
        assert ValidCandle(cs[j]);
      }
      AtrBounds(cs, period, i, 0.0, hi);
    }
  }

  ghost function MaxTrueRange(cs: seq<Candle>, i: nat): (m: real)
    requires i < |cs|
    ensures forall j :: 0 <= j <= i ==> TrueRange(cs, j) <= m
  {
    if i == 0 then TrueRange(cs, 0) else Max(MaxTrueRange(cs, i - 1), TrueRange(cs, i))
  }

  // The mean of the finite values, or 1.0 when there is none, as `_nanmean` has it.

  function FiniteSum(a: seq<Option<real>>): real {
    if a == [] then 0.0
    else FiniteSum(a[..|a| - 1]) + (if a[|a| - 1].Some? then a[|a| - 1].value else 0.0)
  }

  function FiniteCount(a: seq<Option<real>>): nat {
    if a == [] then 0 else FiniteCount(a[..|a| - 1]) + (if a[|a| - 1].Some? then 1 else 0)
  }

  function NanMean(a: seq<Option<real>>): real {
    if FiniteCount(a) == 0 then 1.0 else FiniteSum(a) / FiniteCount(a) as real
  }

  /** The finite values, in order. */
  ghost function Finite(a: seq<Option<real>>): seq<real> {
    if a == [] then [] else (if a[0].Some? then [a[0].value] else []) + Finite(a[1..])
  }

  lemma {:induction false} FiniteSnoc(a: seq<Option<real>>, x: Option<real>)
    ensures Finite(a + [x]) == Finite(a) + (if x.Some? then [x.value] else [])
  {
    if a == [] {
      assert [] + [x] == [x];
    } else {
      var first := if a[0].Some? then [a[0].value] else [];
      assert (a + [x])[1..] == a[1..] + [x] && (a + [x])[0] == a[0];
      FiniteSnoc(a[1..], x);
      var rest, last := Finite(a[1..]), if x.Some? then [x.value] else [];
      assert first + (rest + last) == first + rest + last;
    }
  }

  lemma {:induction false} FiniteIs(a: seq<Option<real>>)
    ensures FiniteCount(a) == |Finite(a)| && FiniteSum(a) == Total(Finite(a))
  {
    hide Total;
    if a == [] {
      TotalOfNone();
    } else {
      var front, last := a[..|a| - 1], a[|a| - 1];
      FiniteIs(front);
      FiniteSnoc(front, last);
      assert a == front + [last];
      if last.Some? {
        TotalSnoc(Finite(front), last.value);
      } else {
        assert Finite(front) + [] == Finite(front);
      }
    }
  }

  lemma TotalOfNone()
    ensures Total([]) == 0.0 && Finite([]) == []
  {
  }

  /** The mean of the finite values, 1.0 when there is none. */
  lemma NanMeanIs(a: seq<Option<real>>)
    ensures var xs := Finite(a);
      if xs == [] then NanMean(a) == 1.0 else NanMean(a) * |xs| as real == Total(xs)
  {
    FiniteIs(a);
    hide Total, Finite;
    if FiniteCount(a) > 0 {
      TimesBack(FiniteSum(a), FiniteCount(a) as real);
    }
  }

  lemma {:induction false} FiniteSumNonNegative(a: seq<Option<real>>)
    requires forall i :: 0 <= i < |a| && a[i].Some? ==> a[i].value >= 0.0
    ensures FiniteSum(a) >= 0.0
  {
    if a != [] {
      FiniteSumNonNegative(a[..|a| - 1]);
    }
  }

  /** The mean ATR, and with it every ATR-scaled tolerance, is never negative. */
  lemma MeanAtrNonNegative(cs: seq<Candle>, period: nat)
    requires ValidCandles(cs) && period >= 1
    ensures NanMean(AtrArray(cs, period)) >= 0.0
  {
    var a := AtrArray(cs, period);
    forall i | 0 <= i < |a| && a[i].Some?
      ensures a[i].value >= 0.0
    {
      AtrNonNegative(cs, period, i);
    }
    FiniteSumNonNegative(a);
    if FiniteCount(a) > 0 {
      DivideBounds(FiniteSum(a), FiniteCount(a) as real, 0.0, FiniteSum(a));
    }
  }

  // ---------- moving average ----------

  /** The mean of the finite values of a window; NaN when there is none. */
  function WindowMean(window: seq<Option<real>>): Option<real> {
    if FiniteCount(window) == 0 then None else Some(Mean(FiniteSum(window), FiniteCount(window)))
  }

  /** The finite values of the window have that mean. */
  ghost predicate IsMeanOf(mean: Option<real>, window: seq<Option<real>>) {
    var xs := Finite(window);
    if xs == [] then mean == None else mean.Some? && mean.value * |xs| as real == Total(xs)
  }

  lemma WindowMeanIs(window: seq<Option<real>>)
    ensures IsMeanOf(WindowMean(window), window)
  {
    FiniteIs(window);
    hide Total, Finite;
    if FiniteCount(window) > 0 {
      TimesBack(FiniteSum(window), FiniteCount(window) as real);
    }
  }

  /** A window's sum and count are differences of the running ones. */
  lemma {:induction false} WindowByPrefixes(values: seq<Option<real>>, lo: nat, hi: nat)
    requires lo <= hi <= |values|
    ensures FiniteSum(values[lo..hi]) == FiniteSum(values[..hi]) - FiniteSum(values[..lo])
    ensures FiniteCount(values[lo..hi]) == FiniteCount(values[..hi]) - FiniteCount(values[..lo])
  {
    if lo < hi {
      WindowByPrefixes(values, lo, hi - 1);
      assert values[lo..hi][..hi - lo - 1] == values[lo..hi - 1];
      assert values[..hi][..hi - 1] == values[..hi - 1];
    }
  }

  /** The mean of every full window by two running sums; NaN before the first full window. */
  method Sma(values: seq<Option<real>>, period: int) returns (out: seq<Option<real>>)
    ensures |out| == |values|
    ensures forall i :: 0 <= i < |values| ==>
      if 0 < period <= i + 1 then IsMeanOf(out[i], values[i + 1 - period..i + 1]) else out[i] == None
  {
    hide Mean, IsMeanOf;
    if period <= 0 || |values| == 0 {
      return seq(|values|, _ => None);
    }
    var sums: seq<real>, counts: seq<nat> := [0.0], [0];
    for i := 0 to |values|
      invariant |sums| == |counts| == i + 1
      invariant forall k :: 0 <= k <= i ==> sums[k] == FiniteSum(values[..k]) && counts[k] == FiniteCount(values[..k])
    {
      assert values[..i + 1][..i] == values[..i];
      var v := values[i];
      sums := sums + [sums[i] + if v.Some? then v.value else 0.0];
      counts := counts + [counts[i] + if v.Some? then 1 else 0];
    }
    out := [];
    for i := 0 to |values|
      invariant |out| == i
      invariant forall k :: 0 <= k < i ==>
        if period <= k + 1 then IsMeanOf(out[k], values[k + 1 - period..k + 1]) else out[k] == None
    {
      if i + 1 < period {
        out := out + [None];
      } else {
        var lo := i + 1 - period;
        WindowByPrefixes(values, lo, i + 1);
        WindowMeanIs(values[lo..i + 1]);
        var count := counts[i + 1] - counts[lo];
        out := out + [if count == 0 then None else Some(Mean(sums[i + 1] - sums[lo], count))];
      }
    }
  }
}
