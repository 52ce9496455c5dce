/** A run of the M5 state machine that gives a signal: what is proved of all signals is not proved of
    none. */
module SignalWitness {
  import opened Prelude
  import opened IctSnapshot
  import opened IctTracker
  import opened IctAttempts
  import opened IctSignals
  import OrderBlocks
  import Structure

  function Setting(): IctConfig {
    IctConfig(0.25, 0.1, 0.0, 0.0, false, OrderBlocks.Params(10, 1.5, 5), 2, 0.5, 10, 100, 500.0, 30, 20, 1.0, 2.0, 2)
  }

  /** A swing low at 98 is liquidity; the bias is seen from the last candle on. */
  function Seen(bias: Option<Direction>): H1Snapshot {
    H1Snapshot(0, 0.0, [], [], [], bias, [], [], [Pool(SwingPool, 98.0)], [], None, None)
  }

  function CandleOf(i: nat): Candle {
    Candle(5 * i, 100.0, if i == 2 then 110.0 else 101.0, if i == 3 then 97.0 else 99.0, 100.0)
  }

  function TickOf(i: nat): Tick {
    var bias := if i == 4 then Some(Long) else None;
    Tick(CandleOf(i), None, Seen(bias), H4Snapshot(bias), true)
  }

  /** A high, then a sweep of the low, then the bias turns. */
  function Stream(n: nat): (ticks: seq<Tick>)
    ensures |ticks| == n
  {
    if n == 0 then [] else Stream(n - 1) + [TickOf(n - 1)]
  }

  function Window(n: nat): seq<Candle> {
    if n == 0 then [] else Window(n - 1) + [CandleOf(n - 1)]
  }

  /** The state after the first `n` evaluations, up to the sweep. */
  function After(n: nat): Tracker {
    if n == 0 then Fresh()
    else
      Tracker(n - 1, Window(n), Some(0), if n >= 3 then 110.0 else 101.0, if n >= 4 then 97.0 else 99.0, [], [],
              if n >= 4 then Some(Sweeping()) else None, None, map[])
  }

  lemma WindowSize(n: nat)
    ensures |Window(n)| == n
  {
  }

  lemma SweepOf(i: nat)
    requires i <= 4
    ensures Swept(SweepPools(TickOf(i).h1, Long), CandleOf(i), Long, 5.0) == if i == 3 then [Pool(SwingPool, 98.0)] else []
    ensures Swept(SweepPools(TickOf(i).h1, Short), CandleOf(i), Short, 5.0) == []
  {
    assert [Pool(SwingPool, 98.0)][..0] == [];
  }

  lemma Observes(i: nat)
    requires i <= 3
    ensures UpdateStructure(Setting(), After(i).(idx := i), CandleOf(i), None) == After(i + 1).(longSetup := None)
  {
    WindowSize(i);
    NextWindow(i);
    hide Window;
  }

  /** The structure after the candle. */
  function Observed(t: Tracker, i: nat): Tracker {
    UpdateStructure(Setting(), t.(idx := t.idx + 1), CandleOf(i), None)
  }

  /** A candle in session that finds no setup and sweeps nothing does no more. */
  lemma NothingSwept(t: Tracker, i: nat)
    requires i <= 2 && Observed(t, i).longSetup == None && Observed(t, i).shortSetup == None
    ensures Advance(Setting(), t, TickOf(i)) == (Observed(t, i), [])
  {
    SweepOf(i);
    hide UpdateStructure, Swept;
  }

  function Sweeping(): Setup {
    Setup(98.0, 3, SwingPool, 15, true, false, None)
  }

  /** The sweep opens a setup that nothing confirms at once. */
  lemma LowIsSwept(t: Tracker)
    requires var u := Observed(t, 3); u.longSetup == None && u.shortSetup == None && u.attempts == map[] && u.idx == 3
    ensures Advance(Setting(), t, TickOf(3)) == (Observed(t, 3).(longSetup := Some(Sweeping())), [])
  {
    var u, none: seq<Signal> := Observed(t, 3), [];
    var v := u.(longSetup := Some(Sweeping()));
    OpensAtLow(u);
    NoneAbove(v);
    NothingConfirms(v);
    hide UpdateStructure, Swept, Opened, Confirmation;
    assert Expire(Setting(), Expire(Setting(), u, Long), Short) == u;
    assert Sweep(Setting(), Sweep(Setting(), u, Long, CandleOf(3), TickOf(3).h1), Short, CandleOf(3), TickOf(3).h1) == v;
    assert Confirm(Setting(), v, Long, TickOf(3)) == (v, none) == Confirm(Setting(), v, Short, TickOf(3));
    assert Invalidate(Invalidate(v, Long, CandleOf(3)), Short, CandleOf(3)) == v;
    hide Expire, Sweep, Confirm, Invalidate;
    assert none + none == none;
  }

  lemma NothingConfirms(t: Tracker)
    requires t.shortSetup == None
    ensures Confirmation(Setting(), t, Long, TickOf(3)) == None == Confirmation(Setting(), t, Short, TickOf(3))
  {
  }

  lemma NoneAbove(t: Tracker)
    ensures Opened(Setting(), t, Short, CandleOf(3), TickOf(3).h1) == None
  {
    SweepOf(3);
    hide Swept;
  }

  lemma OpensAtLow(t: Tracker)
    requires t.longSetup == None && t.attempts == map[] && t.idx == 3
    ensures Opened(Setting(), t, Long, CandleOf(3), TickOf(3).h1) == Some(Sweeping())
  {
    SweepOf(3);
    assert PoolLevels([Pool(SwingPool, 98.0)]) == [98.0];
    hide Swept, PoolLevels, Round2;
  }

  lemma Steps(i: nat)
    requires i <= 3
    ensures Advance(Setting(), After(i), TickOf(i)) == (After(i + 1), [])
  {
    Observes(i);
    hide UpdateStructure, Window, Advance, TickOf, CandleOf;
    assert Observed(After(i), i) == After(i + 1).(longSetup := None);
    hide Observed;
    if i <= 2 {
      NothingSwept(After(i), i);
    } else {
      LowIsSwept(After(3));
    }
  }

  lemma NextWindow(i: nat)
    ensures Window(i + 1) == Window(i) + [CandleOf(i)]
  {
  }

  /** The high is a target by now, and the turned bias confirms the sweep. */
  lemma Confirms()
    ensures Advance(Setting(), After(4), TickOf(4)).1 == [Given()]
  {
    var t1 := UpdateStructure(Setting(), After(4).(idx := 4), CandleOf(4), None);
    HighIsTarget();
    SweepOf(4);
    BiasConfirms(t1);
    BuildsSignal();
    hide UpdateStructure, Swept, Confirmation, BuildSignal, Round2, Given, Setting;
    assert Expire(Setting(), Expire(Setting(), t1, Long), Short) == t1 by {
      NoneExpires(t1);
    }
    assert Sweep(Setting(), Sweep(Setting(), t1, Long, CandleOf(4), TickOf(4).h1), Short, CandleOf(4), TickOf(4).h1) == t1 by {
      NoneOpens(t1);
    }
    assert Confirm(Setting(), t1, Long, TickOf(4)).1 == [Given()];
    assert Confirm(Setting(), Confirm(Setting(), t1, Long, TickOf(4)).0, Short, TickOf(4)).1 == [];
    hide Expire, Sweep, Confirm, Invalidate, After;
    assert [Given()] + [] == [Given()];
  }

  function Given(): Signal {
    Signal(Long, 100.0, 97.0, 110.0, 3.33, 20, HtfAlignment, 98.0, 15, 98.0, Some(Long), Some(Long))
  }

  lemma NoneExpires(t: Tracker)
    requires t.longSetup == Some(Sweeping()) && t.shortSetup == None && t.idx == 4
    ensures Expire(Setting(), Expire(Setting(), t, Long), Short) == t
  {
  }

  lemma NoneOpens(t: Tracker)
    requires t.longSetup == Some(Sweeping()) && t.shortSetup == None
    ensures Sweep(Setting(), Sweep(Setting(), t, Long, CandleOf(4), TickOf(4).h1), Short, CandleOf(4), TickOf(4).h1) == t
  {
    SweepOf(4);
    hide Swept;
  }

  lemma BiasConfirms(t: Tracker)
    requires t.longSetup == Some(Sweeping()) && t.idx == 4
    ensures Confirmation(Setting(), t, Long, TickOf(4)) == Some(PlusOne(HtfAlignment, 98.0, 98.0))
    ensures forall u: Tracker :: u.shortSetup == None ==> Confirmation(Setting(), u, Short, TickOf(4)) == None
  {
    hide Round2;
  }

  lemma HighIsTarget()
    ensures var t := UpdateStructure(Setting(), After(4).(idx := 4), CandleOf(4), None);
      t.tpBuy == [(4, 110.0)] && t.longSetup == After(4).longSetup && t.shortSetup == None && t.idx == 4
  {
    var w := Window(5);
    WindowSize(5);
    NextWindow(4);
    NextWindow(3);
    NextWindow(2);
    assert w[0] == CandleOf(0) && w[1] == CandleOf(1) && w[2] == CandleOf(2) && w[3] == CandleOf(3) && w[4] == CandleOf(4);
    hide Window;
    assert [] + [(4, 110.0)] == [(4, 110.0)];
  }

  lemma BuildsSignal()
    ensures var s := Setup(98.0, 3, SwingPool, 15, false, true, Some(98.0));
      BuildSignal(Setting(), Long, s, HtfAlignment, TickOf(4), [(4, 110.0)]) == [Given()]
  {
    assert [(4, 110.0)][..0] == [] && Targets([(4, 110.0)], Long, 3, 100.0) == [110.0];
    assert TakeProfit([(4, 110.0)], Long, 3, 100.0) == Some(110.0);
    assert RewardRatio(100.0, 97.0, 110.0) == 10.0 / 3.0;
    assert Round2(10.0 / 3.0) == 3.33;
    Round2OfWholeCents(100.0);
    Round2OfWholeCents(97.0);
    Round2OfWholeCents(110.0);
    Round2OfWholeCents(98.0);
    hide Round2, TakeProfit, RewardRatio;
  }

  lemma {:induction false} RunTo(n: nat)
    requires n <= 4
    ensures Run(Setting(), Stream(n)).t == After(n) && Run(Setting(), Stream(n)).signals == []
  {
    hide Advance, After, TickOf, Run, Stream, Setting;
    if n == 0 {
      Starts();
    } else {
      RunTo(n - 1);
      NextRun(n - 1);
      assert n - 1 + 1 == n;
      Steps(n - 1);
    }
  }

  lemma NextRun(n: nat)
    ensures var a, next := Run(Setting(), Stream(n)), Run(Setting(), Stream(n + 1));
      var (t, signals) := Advance(Setting(), a.t, TickOf(n));
      next.t == t && next.signals == a.signals + signals
  {
    hide Advance, TickOf;
    assert Stream(n + 1)[..n] == Stream(n);
  }

  lemma Starts()
    ensures After(0) == Fresh() && Run(Setting(), Stream(0)).t == Fresh() && Run(Setting(), Stream(0)).signals == []
  {
  }

  /** The stream gives one signal, and it confirms the sweep of the low. */
  lemma StreamGivesSignal()
    ensures Run(Setting(), Stream(5)).signals == [Given()] && exists n :: SignalAt(Setting(), Stream(5), n, Given())
  {
    RunTo(4);
    Confirms();
    hide Advance, After, SignalAt, TickOf, Run, Stream;
    NextRun(4);
    SignalsConfirmSweeps(Setting(), Stream(5), Given());
  }
}
