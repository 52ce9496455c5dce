/** The drawdown a backtest reports (services/backtest/engine.py, `_metrics_from_trades`), over the
    trades' results in R. */
module Metrics {
  import opened Prelude
  import Backtest
  import Indicators

  /** The cumulative result after the first `n` trades. */
  function Curve(rs: seq<real>, n: nat): real
    requires n <= |rs|
  {
    if n == 0 then 0.0 else Curve(rs, n - 1) + rs[n - 1]
  }

  /** It is their sum. */
  lemma {:induction false} CurveIsTotal(rs: seq<real>, n: nat)
    requires n <= |rs|
    ensures Curve(rs, n) == Indicators.Total(rs[..n])
  {
    if n == 0 {
      Indicators.TotalOfNone();
    } else {
      CurveIsTotal(rs, n - 1);
      Indicators.TotalSnoc(rs[..n - 1], rs[n - 1]);
      assert rs[..n] == rs[..n - 1] + [rs[n - 1]];
    }
  }

  ghost predicate IsDrop(rs: seq<real>, i: nat, j: nat, d: real) {
    i <= j <= |rs| && d == Curve(rs, i) - Curve(rs, j)
  }

  /** No drop from a point in profit, among the first `n` trades, exceeds `d`. */
  ghost predicate BoundsDrops(rs: seq<real>, n: nat, d: real)
    requires n <= |rs|
  {
    forall i, j :: 0 <= i <= j <= n && Curve(rs, i) > 0.0 ==> Curve(rs, i) - Curve(rs, j) <= d
  }

  ghost predicate Attained(rs: seq<real>, d: real) {
    d == 0.0 || exists i, j :: IsDrop(rs, i, j, d) && Curve(rs, i) > 0.0
  }

  /** What the loop reports: the largest drop of the curve from a point in profit, or zero. */
  ghost predicate Reported(rs: seq<real>, d: real) {
    d >= 0.0 && BoundsDrops(rs, |rs|, d) && Attained(rs, d)
  }

  /** The running peak: zero or the highest point so far. */
  ghost predicate IsPeak(rs: seq<real>, n: nat, peak: real)
    requires n <= |rs|
  {
    && (forall i :: 0 <= i <= n ==> Curve(rs, i) <= peak)
    && (exists i :: 0 <= i <= n && Curve(rs, i) == peak)
  }

  method MaxDrawdown(rs: seq<real>) returns (maxDd: real)
    ensures Reported(rs, maxDd)
  {
    var cum, peak := 0.0, 0.0;
    maxDd := 0.0;
    NoTradeYet(rs);
    hide IsPeak, BoundsDrops, Attained;
    for k := 0 to |rs|
      invariant cum == Curve(rs, k) && IsPeak(rs, k, peak)
      invariant maxDd >= 0.0 && BoundsDrops(rs, k, maxDd) && Attained(rs, maxDd)
    {
      PeakStep(rs, k, peak);
      cum := cum + rs[k];
      peak := Max(peak, cum);
      DropStep(rs, k, peak, maxDd);
      maxDd := Max(maxDd, if peak > 0.0 then peak - cum else 0.0);
    }
  }

  lemma NoTradeYet(rs: seq<real>)
    ensures IsPeak(rs, 0, 0.0) && BoundsDrops(rs, 0, 0.0) && Attained(rs, 0.0)
  {
    assert Curve(rs, 0) == 0.0;
  }

  lemma DropStep(rs: seq<real>, k: nat, peak: real, maxDd: real)
    requires k < |rs| && IsPeak(rs, k + 1, peak) && maxDd >= 0.0 && BoundsDrops(rs, k, maxDd) && Attained(rs, maxDd)
    ensures var next := Max(maxDd, if peak > 0.0 then peak - Curve(rs, k + 1) else 0.0);
      BoundsDrops(rs, k + 1, next) && Attained(rs, next)
  {
    hide Curve;
    var top :| 0 <= top <= k + 1 && Curve(rs, top) == peak;
    assert IsDrop(rs, top, k + 1, peak - Curve(rs, k + 1));
  }

  lemma PeakStep(rs: seq<real>, k: nat, peak: real)
    requires k < |rs| && IsPeak(rs, k, peak)
    ensures IsPeak(rs, k + 1, Max(peak, Curve(rs, k + 1)))
  {
    hide Curve;
    var top :| 0 <= top <= k && Curve(rs, top) == peak;
    assert Curve(rs, if peak < Curve(rs, k + 1) then k + 1 else top) == Max(peak, Curve(rs, k + 1));
  }

  /** The largest drop of the curve from any point of it, the start included. */
  ghost predicate LargestDrop(rs: seq<real>, d: real) {
    && (forall i, j :: 0 <= i <= j <= |rs| ==> Curve(rs, i) - Curve(rs, j) <= d)
    && (exists i, j :: IsDrop(rs, i, j, d))
  }

  /** No trade up to the `n`th has brought the account into profit. */
  ghost predicate NoProfitBefore(rs: seq<real>, n: nat)
    requires n <= |rs|
  {
    forall i :: 0 <= i <= n ==> Curve(rs, i) <= 0.0
  }

  /** Every loss run up before the first profit is matched by a drop from a point in profit. */
  ghost predicate EarlyLossesCovered(rs: seq<real>) {
    forall j :: 0 <= j <= |rs| && NoProfitBefore(rs, j) && Curve(rs, j) < 0.0 ==> Covered(rs, -Curve(rs, j))
  }

  ghost predicate Covered(rs: seq<real>, loss: real) {
    exists i, k, d :: IsDrop(rs, i, k, d) && Curve(rs, i) > 0.0 && d >= loss
  }

  /** The reported drawdown is the true one exactly when every loss run up before the first profit is
      matched by a later drop: a loss that no profit precedes is not counted at all. */
  lemma DrawdownIff(rs: seq<real>, d: real)
    requires Reported(rs, d)
    ensures LargestDrop(rs, d) <==> EarlyLossesCovered(rs)
  {
    if LargestDrop(rs, d) {
      forall j | 0 <= j <= |rs| && NoProfitBefore(rs, j) && Curve(rs, j) < 0.0
        ensures Covered(rs, -Curve(rs, j))
      {
        assert Curve(rs, 0) - Curve(rs, j) <= d;
        var i, k :| IsDrop(rs, i, k, d) && Curve(rs, i) > 0.0;
      }
    }
    if EarlyLossesCovered(rs) {
      forall i, j | 0 <= i <= j <= |rs|
        ensures Curve(rs, i) - Curve(rs, j) <= d
      {
        DropWithin(rs, d, i, j);
      }
      assert IsDrop(rs, 0, 0, 0.0);
    }
  }

  lemma DropWithin(rs: seq<real>, d: real, i: nat, j: nat)
    requires Reported(rs, d) && EarlyLossesCovered(rs) && i <= j <= |rs|
    ensures Curve(rs, i) - Curve(rs, j) <= d
  {
    hide Curve;
    if Curve(rs, i) <= 0.0 && Curve(rs, j) < 0.0 {
      if NoProfitBefore(rs, j) {
        var m, k, e :| IsDrop(rs, m, k, e) && Curve(rs, m) > 0.0 && e >= -Curve(rs, j);
      } else {
        var m :| 0 <= m <= j && Curve(rs, m) > 0.0;
        assert Curve(rs, m) - Curve(rs, j) <= d;
      }
    }
  }

  /** The result of a single trade never counts as a drawdown. */
  lemma SingleTrade(rs: seq<real>, d: real)
    requires |rs| <= 1 && Reported(rs, d)
    ensures d == 0.0 && (LargestDrop(rs, d) <==> forall r :: r in rs ==> r >= 0.0)
  {
    assert forall i, j :: IsDrop(rs, i, j, d) && Curve(rs, i) > 0.0 ==> d == 0.0;
    DrawdownIff(rs, 0.0);
    assert Curve(rs, 0) == 0.0;
    if |rs| == 1 {
      assert Curve(rs, 1) == rs[0];
      assert NoProfitBefore(rs, 1) <==> rs[0] <= 0.0;
      if rs[0] >= 0.0 {
        assert EarlyLossesCovered(rs);
      } else {
        assert forall i, k, e :: IsDrop(rs, i, k, e) ==> Curve(rs, i) <= 0.0;
        assert !Covered(rs, -Curve(rs, 1));
        assert rs[0] in rs;
      }
    }
  }

  /** A trade without risk counts as zero R. */
  function ResultsInR(trades: seq<Backtest.Trade>): seq<real> {
    seq(|trades|, i requires 0 <= i < |trades| => if trades[i].riskAmount == 0.0 then 0.0 else trades[i].pnl / trades[i].riskAmount)
  }

  /** A backtest run holds at most one trade, so the drawdown it reports is always zero; that is the
      true drawdown exactly when the trade, if there is one, did not lose. */
  lemma BacktestDrawdown(s: Backtest.Setup, signals: seq<Backtest.SimSignal>, equity: real, d: real)
    requires s.Valid()
    requires Backtest.TradesBelow(s, signals, equity, |signals|).Success?
    requires Reported(ResultsInR(Backtest.TradesBelow(s, signals, equity, |signals|).value), d)
    ensures var rs := ResultsInR(Backtest.TradesBelow(s, signals, equity, |signals|).value);
      d == 0.0 && (LargestDrop(rs, d) <==> forall r :: r in rs ==> r >= 0.0)
  {
    AtMostOne(s, signals, equity, |signals|);
    hide Backtest.TradesBelow, Reported, LargestDrop;
    SingleTrade(ResultsInR(Backtest.TradesBelow(s, signals, equity, |signals|).value), d);
  }

  lemma {:induction false} AtMostOne(s: Backtest.Setup, signals: seq<Backtest.SimSignal>, equity: real, n: nat)
    requires s.Valid() && n <= |signals|
    ensures match Backtest.TradesBelow(s, signals, equity, n)
      case Success(trades) => |trades| <= 1
      case Raised(_) => true
  {
    hide Backtest.Simulate;
    if n > 0 {
      AtMostOne(s, signals, equity, n - 1);
    }
  }

  /** A result is the trade's profit in units of the amount it risked. */
  lemma ResultIs(trades: seq<Backtest.Trade>, i: nat)
    requires i < |trades|
    ensures |ResultsInR(trades)| == |trades|
    ensures var r := ResultsInR(trades)[i];
      if trades[i].riskAmount == 0.0 then r == 0.0 else r * trades[i].riskAmount == trades[i].pnl
  {
  }
}
