/** What one evaluation of the ICT tracker does, exactly (services/strategy/ict.py, `M5Tracker`):
    when a setup opens, is confirmed, gives a signal or is given up. */
module IctSteps {
  import opened Prelude
  import opened IctSnapshot
  import opened IctTracker
  import opened IctSignals
  import Structure

  // ---------- opening ----------

  /** A new setup of evaluation `idx` on the swept pool nearest to the close. */
  ghost predicate NewSetup(cfg: IctConfig, tick: Tick, d: Direction, idx: int, s: Setup) {
    var pools := if d == Long then tick.h1.sellLiquidity else tick.h1.buyLiquidity;
    && NearestSwept(pools, tick.candle, d, ReachOf(cfg), s.level) && FirstAt(pools, s.level, s.kind)
    && s == Setup(s.level, idx, s.kind, tick.candle.time, true, false, None)
  }

  /** The first pool at the level is of this kind. */
  ghost predicate FirstAt(pools: seq<Pool>, level: real, kind: PoolKind) {
    exists i :: 0 <= i < |pools| && pools[i] == Pool(kind, level) && forall j :: 0 <= j < i ==> pools[j].level != level
  }

  ghost predicate NoneAt(pools: seq<Pool>, level: real) {
    forall j :: 0 <= j < |pools| ==> pools[j].level != level
  }

  /** The level has an attempt left: those spent, and the one that expires now, are below the limit. */
  ghost predicate AttemptLeft(cfg: IctConfig, attempts: map<Key, nat>, d: Direction, level: real, expiring: Option<real>) {
    var key := (d, Round2(level));
    && (key in attempts ==> attempts[key] + (if expiring.Some? && Round2(expiring.value) == Round2(level) then 1 else 0) < cfg.maxAttempts)
    && (key !in attempts ==> (if expiring.Some? && Round2(expiring.value) == Round2(level) then 1 else 0) < cfg.maxAttempts)
  }

  lemma {:induction false} PoolAtAppend(pools: seq<Pool>, p: Pool, level: real)
    ensures PoolAt(pools + [p], level)
         == if PoolAt(pools, level).Some? then PoolAt(pools, level) else if p.level == level then Some(p.kind) else None
  {
    if pools != [] {
      assert (pools + [p])[1..] == pools[1..] + [p];
      PoolAtAppend(pools[1..], p, level);
    } else {
      assert (pools + [p])[1..] == [];
    }
  }

  lemma {:induction false} PoolAtIs(pools: seq<Pool>, c: Candle, d: Direction, reach: real, level: real)
    requires SweptBy(c, d, level, reach)
    ensures match PoolAt(Swept(pools, c, d, reach), level)
      case Some(kind) => FirstAt(pools, level, kind)
      case None => NoneAt(pools, level)
  {
    if pools != [] {
      hide SweptBy;
      var n := |pools| - 1;
      PoolAtIs(pools[..n], c, d, reach, level);
      var swept := Swept(pools[..n], c, d, reach);
      if SweptBy(c, d, pools[n].level, reach) {
        PoolAtAppend(swept, pools[n], level);
      } else {
        assert Swept(pools, c, d, reach) == swept;
      }
      if PoolAt(swept, level).Some? {
        var i :| 0 <= i < n && pools[..n][i] == Pool(PoolAt(swept, level).value, level)
                 && forall j :: 0 <= j < i ==> pools[..n][j].level != level;
        assert pools[i] == Pool(PoolAt(swept, level).value, level) && forall j :: 0 <= j < i ==> pools[j].level != level;
      } else {
        assert forall j :: 0 <= j < n ==> pools[..n][j].level != level && pools[j] == pools[..n][j];
      }
    }
  }

  lemma OneNearest(pools: seq<Pool>, c: Candle, d: Direction, reach: real, x: real, y: real)
    requires NearestSwept(pools, c, d, reach, x) && NearestSwept(pools, c, d, reach, y)
    ensures x == y
  {
  }

  lemma OneKind(pools: seq<Pool>, level: real, a: PoolKind, b: PoolKind)
    requires FirstAt(pools, level, a) && FirstAt(pools, level, b)
    ensures a == b && !NoneAt(pools, level)
  {
    var i :| 0 <= i < |pools| && pools[i] == Pool(a, level) && forall j :: 0 <= j < i ==> pools[j].level != level;
    var k :| 0 <= k < |pools| && pools[k] == Pool(b, level) && forall j :: 0 <= j < k ==> pools[j].level != level;
    assert i == k;
  }

  /** A setup opens exactly when none is active, a pool is swept and its level has an attempt left. */
  lemma OpenedIff(cfg: IctConfig, t: Tracker, d: Direction, tick: Tick, s: Setup)
    ensures Opened(cfg, t, d, tick.candle, tick.h1) == Some(s)
       <==> !IsActive(SetupOf(t, d)) && AttemptLeft(cfg, t.attempts, d, s.level, None) && NewSetup(cfg, tick, d, t.idx, s)
  {
    hide NearestSwept, FirstAt, NoneAt, Swept, SweptBy, Round2, PoolAt, Structure.Extreme;
    var pools, reach := SweepPools(tick.h1, d), ReachOf(cfg);
    var swept := Swept(pools, tick.candle, d, reach);
    if swept != [] {
      NearestIsExtreme(pools, tick.candle, d, reach);
      var level := Structure.Extreme(if d == Long then Structure.Bull else Structure.Bear, PoolLevels(swept));
      NearestIsFound(pools, tick.candle, d, reach, level);
      if NearestSwept(pools, tick.candle, d, reach, s.level) {
        OneNearest(pools, tick.candle, d, reach, level, s.level);
      }
      if FirstAt(pools, level, s.kind) && PoolAt(swept, level).Some? {
        OneKind(pools, level, s.kind, PoolAt(swept, level).value);
      }
    } else if NearestSwept(pools, tick.candle, d, reach, s.level) {
      NearestIsFound(pools, tick.candle, d, reach, s.level);
    }
  }

  lemma NearestIsFound(pools: seq<Pool>, c: Candle, d: Direction, reach: real, level: real)
    requires NearestSwept(pools, c, d, reach, level)
    ensures Swept(pools, c, d, reach) != []
    ensures PoolAt(Swept(pools, c, d, reach), level).Some? && FirstAt(pools, level, PoolAt(Swept(pools, c, d, reach), level).value)
  {
    SweptIs(c, d, level, reach);
    PoolAtIs(pools, c, d, reach, level);
    var p :| p in pools && p.level == level;
    SweptMembers(pools, c, d, reach, p);
  }

  // ---------- confirmation ----------

  /** The setup is pending and young enough, and the evidence confirms it on this candle. */
  ghost predicate Confirms(cfg: IctConfig, tick: Tick, d: Direction, idx: int, s: Setup, kind: PlusOneKind, edge: real) {
    s.active && !s.confirmed && idx - s.sweepIdx <= cfg.lookbackBars && ConfirmedBy(cfg, tick, d, s.level, kind, edge)
  }

  ghost predicate AnyConfirms(cfg: IctConfig, tick: Tick, d: Direction, idx: int, s: Setup) {
    exists kind, edge :: Confirms(cfg, tick, d, idx, s, kind, edge)
  }

  lemma ConfirmationIff(cfg: IctConfig, t: Tracker, d: Direction, tick: Tick, kind: PlusOneKind, edge: real)
    ensures SetupOf(t, d).Some? && Confirms(cfg, tick, d, t.idx, SetupOf(t, d).value, kind, edge)
       <==> exists p :: Confirmation(cfg, t, d, tick) == Some(p) && p.kind == kind && p.structural == edge
  {
    if SetupOf(t, d).Some? {
      var s := SetupOf(t, d).value;
      hide SelectPlusOne, Evidence;
      if Confirms(cfg, tick, d, t.idx, s, kind, edge) {
        var far :| Evidence(cfg, tick, d, s.level, kind, far, edge)
                   && (if d == Long then tick.candle.close > far && tick.h4.bias != Some(Short)
                       else tick.candle.close < far && tick.h4.bias != Some(Long));
        PlusOneIff(cfg, d, s.level, tick, PlusOne(kind, far, edge));
      }
      if Confirmation(cfg, t, d, tick).Some? {
        PlusOneIff(cfg, d, s.level, tick, Confirmation(cfg, t, d, tick).value);
      }
    }
  }

  // ---------- the signal ----------

  /** What the signal of a confirmed setup holds. */
  ghost predicate IsSignal(cfg: IctConfig, tick: Tick, d: Direction, s: Setup, kind: PlusOneKind, edge: real,
                           targets: seq<(int, real)>, g: Signal)
  {
    && g.direction == d && g.price == Round2(tick.candle.close) && g.candleTime == tick.candle.time
    && g.setup == kind && g.sweepLevel == Round2(s.level) && g.sweepTime == s.sweepTime && g.structuralLevel == Round2(edge)
    && g.biasH1 == tick.h1.bias && g.biasH4 == tick.h4.bias
    && Priced(cfg, tick, d, s.sweepIdx, edge, targets, g)
  }

  lemma OneTarget(targets: seq<(int, real)>, d: Direction, sweepIdx: int, entry: real, k: nat, l: nat)
    requires k < |targets| && l < |targets|
    requires NearestTarget(targets, d, sweepIdx, entry, k) && NearestTarget(targets, d, sweepIdx, entry, l)
    ensures targets[k].1 == targets[l].1
  {
  }

  lemma OneReward(d: Direction, entry: real, sl: real, tp: real, x: real, y: real)
    requires if d == Long then sl < entry else sl > entry
    requires RewardIs(d, entry, sl, tp, x) && RewardIs(d, entry, sl, tp, y)
    ensures x == y
  {
    var risk := if d == Long then entry - sl else sl - entry;
    assert (x - y) * risk == 0.0;
  }

  /** A confirmed setup gives a signal exactly when its stop is protective and the nearest target
      pays the configured reward, and then the signal that says so. */
  lemma BuiltIff(cfg: IctConfig, d: Direction, s: Setup, kind: PlusOneKind, tick: Tick, targets: seq<(int, real)>, g: Signal)
    requires s.structural.Some?
    ensures g in BuildSignal(cfg, d, s, kind, tick, targets) <==> IsSignal(cfg, tick, d, s, kind, s.structural.value, targets, g)
  {
    hide Round2, TakeProfit, RewardRatio, RewardIs, NearestTarget;
    var edge := s.structural.value;
    if g in BuildSignal(cfg, d, s, kind, tick, targets) {
      BuiltIsSane(cfg, d, s, kind, tick, targets, g);
    }
    if IsSignal(cfg, tick, d, s, kind, edge, targets, g) {
      IsBuilt(cfg, d, s, kind, tick, targets, g);
    }
  }

  lemma IsBuilt(cfg: IctConfig, d: Direction, s: Setup, kind: PlusOneKind, tick: Tick, targets: seq<(int, real)>, g: Signal)
    requires s.structural.Some? && IsSignal(cfg, tick, d, s, kind, s.structural.value, targets, g)
    ensures g in BuildSignal(cfg, d, s, kind, tick, targets)
  {
    hide Round2, TakeProfit, RewardRatio, RewardIs, NearestTarget;
    var entry, edge := tick.candle.close, s.structural.value;
    var sl := StopOf(cfg, tick, d, edge);
    var k: nat, reward :| PricedBy(cfg, tick, d, s.sweepIdx, edge, targets, g, k, reward);
    IsAhead(targets, d, s.sweepIdx, entry, k);
    RecordedSince(targets, d, s.sweepIdx, entry, k);
    TakeProfitIsNearest(targets, d, s.sweepIdx, entry);
    var tp := TakeProfit(targets, d, s.sweepIdx, entry);
    assert tp.Some?;
    var l :| 0 <= l < |targets| && targets[l].1 == tp.value && NearestTarget(targets, d, s.sweepIdx, entry, l);
    OneTarget(targets, d, s.sweepIdx, entry, k, l);
    RewardRatioIs(d, entry, sl, tp.value);
    OneReward(d, entry, sl, tp.value, reward, RewardRatio(entry, sl, tp.value));
  }

  lemma RecordedSince(targets: seq<(int, real)>, d: Direction, sweepIdx: int, entry: real, k: nat)
    requires k < |targets| && NearestTarget(targets, d, sweepIdx, entry, k)
    ensures targets[k].0 > sweepIdx
  {
  }

  // ---------- a whole evaluation ----------


  /** The setup that this evaluation looks to confirm: the active one while it is fresh, else the
      one that its own sweep opens. */
  ghost predicate InForce(cfg: IctConfig, t: Tracker, tick: Tick, d: Direction, s: Setup) {
    var old_ := SetupOf(t, d);
    if old_.Some? && old_.value.active && t.idx + 1 - old_.value.sweepIdx <= cfg.freshBars then s == old_.value
    else
      && AttemptLeft(cfg, t.attempts, d, s.level, if old_.Some? && old_.value.active then Some(old_.value.level) else None)
      && NewSetup(cfg, tick, d, t.idx + 1, s)
  }

  /** Steps of the other direction leave this much as it is. */
  ghost predicate SameSide(t: Tracker, u: Tracker, d: Direction) {
    && u.idx == t.idx && SetupOf(u, d) == SetupOf(t, d) && SameTargets(t, u)
    && forall x: real :: ((d, x) in u.attempts <==> (d, x) in t.attempts)
                        && ((d, x) in u.attempts ==> u.attempts[(d, x)] == t.attempts[(d, x)])
  }

  lemma OtherExpires(cfg: IctConfig, t: Tracker, d: Direction)
    ensures SameSide(t, Expire(cfg, t, Other(d)), d)
  {
    hide Round2;
  }

  lemma OtherSweeps(cfg: IctConfig, t: Tracker, d: Direction, tick: Tick)
    ensures SameSide(t, Sweep(cfg, t, Other(d), tick.candle, tick.h1), d)
  {
    hide Opened;
  }

  lemma OtherConfirms(cfg: IctConfig, t: Tracker, d: Direction, tick: Tick)
    ensures SameSide(t, Confirm(cfg, t, Other(d), tick).0, d)
    ensures forall g :: g in Confirm(cfg, t, Other(d), tick).1 ==> g.direction == Other(d)
  {
    hide Round2, SelectPlusOne, TakeProfit, RewardRatio;
  }

  lemma OtherInvalidates(t: Tracker, d: Direction, c: Candle)
    ensures SameSide(t, Invalidate(t, Other(d), c), d)
  {
    hide Round2;
  }

  lemma LeftAfterExpiry(cfg: IctConfig, t: Tracker, u: Tracker, d: Direction, level: real)
    requires SameSide(Expire(cfg, t, d), u, d)
    ensures AttemptLeft(cfg, u.attempts, d, level, None)
       <==> AttemptLeft(cfg, t.attempts, d, level,
                        if IsActive(SetupOf(t, d)) && t.idx - SetupOf(t, d).value.sweepIdx > cfg.freshBars
                        then Some(SetupOf(t, d).value.level) else None)
  {
    hide Round2;
    var v, key := Expire(cfg, t, d), (d, Round2(level));
    assert (d, key.1) in u.attempts <==> (d, key.1) in v.attempts;
    assert key in u.attempts ==> u.attempts[key] == v.attempts[key];
  }

  /** Expiry and sweep of one direction, with the other direction's steps between them. */
  lemma InForceIs(cfg: IctConfig, t: Tracker, a: Tracker, c: Tracker, z: Tracker, d: Direction, tick: Tick, s: Setup)
    requires t.idx + 1 == a.idx && SameSide(t.(idx := a.idx, tpBuy := a.tpBuy, tpSell := a.tpSell), a, d)
    requires SameSide(Expire(cfg, a, d), c, d) && SameSide(Sweep(cfg, c, d, tick.candle, tick.h1), z, d)
    ensures s.active ==> (SetupOf(z, d) == Some(s) <==> InForce(cfg, t, tick, d, s))
    ensures SameTargets(a, z) && z.idx == a.idx
  {
    hide NewSetup, AttemptLeft, Opened;
    OpenedIff(cfg, c, d, tick, s);
    if Opened(cfg, c, d, tick.candle, tick.h1).Some? {
      OpenedIff(cfg, c, d, tick, Opened(cfg, c, d, tick.candle, tick.h1).value);
    }
    LeftAfterExpiry(cfg, a, c, d, s.level);
    SameLeft(cfg, t, a, d, s.level, if IsActive(SetupOf(t, d)) then Some(SetupOf(t, d).value.level) else None);
  }

  lemma SameLeft(cfg: IctConfig, t: Tracker, a: Tracker, d: Direction, level: real, expiring: Option<real>)
    requires SameSide(t.(idx := a.idx, tpBuy := a.tpBuy, tpSell := a.tpSell), a, d)
    ensures AttemptLeft(cfg, t.attempts, d, level, expiring) <==> AttemptLeft(cfg, a.attempts, d, level, expiring)
  {
    hide Round2;
    var x := Round2(level);
    assert (d, x) in a.attempts <==> (d, x) in t.attempts;
  }

  /** The tracker when an evaluation in session comes to its confirmations. */
  function AfterSweeps(cfg: IctConfig, t0: Tracker, tick: Tick): Tracker {
    var t1 := UpdateStructure(cfg, t0.(idx := t0.idx + 1), tick.candle, tick.atr);
    var t2 := Expire(cfg, Expire(cfg, t1, Long), Short);
    Sweep(cfg, Sweep(cfg, t2, Long, tick.candle, tick.h1), Short, tick.candle, tick.h1)
  }

  lemma StructureKeepsAttempts(cfg: IctConfig, t: Tracker, c: Candle, atr: Option<real>)
    ensures UpdateStructure(cfg, t, c, atr).attempts == t.attempts
  {
  }

  lemma SetupsInForce(cfg: IctConfig, t: Tracker, tick: Tick, d: Direction, s: Setup)
    ensures var z := AfterSweeps(cfg, t, tick);
      && z.idx == t.idx + 1 && SameTargets(UpdateStructure(cfg, t.(idx := t.idx + 1), tick.candle, tick.atr), z)
      && (s.active ==> (SetupOf(z, d) == Some(s) <==> InForce(cfg, t, tick, d, s)))
  {
    hide InForce, UpdateStructure, Expire, Sweep;
    var t0 := t.(idx := t.idx + 1);
    var t1 := UpdateStructure(cfg, t0, tick.candle, tick.atr);
    StructureKeepsSetups(cfg, t0, tick.candle, tick.atr);
    StructureKeepsAttempts(cfg, t0, tick.candle, tick.atr);
    var e1 := Expire(cfg, t1, Long);
    var e2 := Expire(cfg, e1, Short);
    var s1 := Sweep(cfg, e2, Long, tick.candle, tick.h1);
    var s2 := Sweep(cfg, s1, Short, tick.candle, tick.h1);
    if d == Long {
      OtherExpires(cfg, e1, d);
      OtherSweeps(cfg, s1, d, tick);
      InForceIs(cfg, t, t1, e2, s2, d, tick, s);
    } else {
      OtherExpires(cfg, t1, d);
      OtherSweeps(cfg, e2, d, tick);
      InForceIs(cfg, t, e1, s1, s2, d, tick, s);
    }
  }

  // ---------- what confirming gives ----------

  /** The setup confirmed on evaluation `idx` gives the signal; `u` is the tracker after it. */
  ghost predicate GivesSignal(cfg: IctConfig, tick: Tick, idx: int, s: Setup, u: Tracker, g: Signal) {
    exists edge ::
      && Confirms(cfg, tick, g.direction, idx, s, g.setup, edge)
      && IsSignal(cfg, tick, g.direction, s, g.setup, edge, if g.direction == Long then u.tpBuy else u.tpSell, g)
  }

  /** The confirmation of one direction gives exactly the signals of its setup in force. */
  lemma ConfirmGives(cfg: IctConfig, t: Tracker, d: Direction, tick: Tick, g: Signal)
    ensures g in Confirm(cfg, t, d, tick).1
       <==> SetupOf(t, d).Some? && g.direction == d && GivesSignal(cfg, tick, t.idx, SetupOf(t, d).value, t, g)
  {
    hide Confirmation, Confirms, BuildSignal, Priced;
    var targets := if d == Long then t.tpBuy else t.tpSell;
    if g in Confirm(cfg, t, d, tick).1 {
      var p := Confirmation(cfg, t, d, tick).value;
      ConfirmationIff(cfg, t, d, tick, p.kind, p.structural);
      var s := SetupOf(t, d).value;
      BuiltIff(cfg, d, s.(confirmed := true, active := false, structural := Some(p.structural)), p.kind, tick, targets, g);
      assert Confirms(cfg, tick, d, t.idx, s, g.setup, p.structural) && IsSignal(cfg, tick, d, s, g.setup, p.structural, targets, g);
    }
    if SetupOf(t, d).Some? && g.direction == d && GivesSignal(cfg, tick, t.idx, SetupOf(t, d).value, t, g) {
      var s := SetupOf(t, d).value;
      var edge :| Confirms(cfg, tick, d, t.idx, s, g.setup, edge) && IsSignal(cfg, tick, d, s, g.setup, edge, targets, g);
      ConfirmationIff(cfg, t, d, tick, g.setup, edge);
      BuiltIff(cfg, d, s.(confirmed := true, active := false, structural := Some(edge)), g.setup, tick, targets, g);
    }
  }

  /** After confirming, the setup is the active one still exactly when nothing confirmed it. */
  lemma ConfirmLeaves(cfg: IctConfig, t: Tracker, d: Direction, tick: Tick, s: Setup)
    requires s.active
    ensures SetupOf(Confirm(cfg, t, d, tick).0, d) == Some(s)
       <==> SetupOf(t, d) == Some(s) && !AnyConfirms(cfg, tick, d, t.idx, s)
    ensures SameTargets(t, Confirm(cfg, t, d, tick).0)
  {
    hide Confirmation, Confirms, BuildSignal, Round2;
    if SetupOf(t, d) == Some(s) {
      if Confirmation(cfg, t, d, tick).Some? {
        var p := Confirmation(cfg, t, d, tick).value;
        ConfirmationIff(cfg, t, d, tick, p.kind, p.structural);
      }
      if kind, edge :| Confirms(cfg, tick, d, t.idx, s, kind, edge) {
        ConfirmationIff(cfg, t, d, tick, kind, edge);
      }
    }
  }

  lemma InvalidateLeaves(t: Tracker, d: Direction, c: Candle, s: Setup)
    requires s.active
    ensures SetupOf(Invalidate(t, d, c), d) == Some(s)
       <==> SetupOf(t, d) == Some(s) && (s.confirmed || if d == Long then c.close >= s.level else c.close <= s.level)
    ensures SameTargets(t, Invalidate(t, d, c))
  {
    hide Round2;
  }

  /** An evaluation gives exactly the signals of the setups in force that it confirms; outside the
      sessions it gives none. */
  lemma SignalIff(cfg: IctConfig, t: Tracker, tick: Tick, g: Signal)
    ensures var (u, new_) := Advance(cfg, t, tick);
      g in new_ <==> tick.inSession && exists s :: InForce(cfg, t, tick, g.direction, s) && GivesSignal(cfg, tick, t.idx + 1, s, u, g)
  {
    hide InForce, GivesSignal, Confirm, Invalidate, Expire, Sweep, UpdateStructure;
    if tick.inSession {
      var z, u := AfterSweeps(cfg, t, tick), Advance(cfg, t, tick).0;
      var t4 := Confirm(cfg, z, Long, tick).0;
      SameTargetsAfter(cfg, z, tick);
      if g.direction == Long {
        OtherConfirms(cfg, t4, Long, tick);
        SideGives(cfg, t, z, u, tick, g);
      } else {
        OtherConfirms(cfg, z, Short, tick);
        SideGives(cfg, t, t4, u, tick, g);
      }
    }
  }

  /** The direction's own confirmation, from a tracker that agrees with the one after the sweeps. */
  lemma SideGives(cfg: IctConfig, t: Tracker, x: Tracker, u: Tracker, tick: Tick, g: Signal)
    requires SameSide(AfterSweeps(cfg, t, tick), x, g.direction) && SameTargets(x, u)
    ensures g in Confirm(cfg, x, g.direction, tick).1
       <==> exists s :: InForce(cfg, t, tick, g.direction, s) && GivesSignal(cfg, tick, t.idx + 1, s, u, g)
  {
    hide InForce, GivesSignal, Confirm, AfterSweeps;
    ConfirmGives(cfg, x, g.direction, tick, g);
    GivesWithTargets(cfg, tick, t.idx + 1, x, u, g);
    forall s: Setup
      ensures AfterSweeps(cfg, t, tick).idx == t.idx + 1
      ensures s.active ==> (SetupOf(x, g.direction) == Some(s) <==> InForce(cfg, t, tick, g.direction, s))
    {
      SetupsInForce(cfg, t, tick, g.direction, s);
    }
  }

  lemma GivesWithTargets(cfg: IctConfig, tick: Tick, idx: int, t: Tracker, u: Tracker, g: Signal)
    requires SameTargets(t, u)
    ensures forall s :: GivesSignal(cfg, tick, idx, s, t, g) == GivesSignal(cfg, tick, idx, s, u, g)
    ensures forall s :: GivesSignal(cfg, tick, idx, s, t, g) ==> s.active
  {
    hide ConfirmedBy, IsSignal;
  }

  /** A setup is the active one after an evaluation in session exactly when it was in force, nothing
      confirmed it and the close did not go through its level. */
  lemma StaysActiveIff(cfg: IctConfig, t: Tracker, tick: Tick, d: Direction, s: Setup)
    requires tick.inSession && s.active
    ensures SetupOf(Advance(cfg, t, tick).0, d) == Some(s)
       <==> && InForce(cfg, t, tick, d, s) && !AnyConfirms(cfg, tick, d, t.idx + 1, s)
            && (s.confirmed || if d == Long then tick.candle.close >= s.level else tick.candle.close <= s.level)
  {
    hide InForce, AnyConfirms, Confirm, Invalidate;
    var z := AfterSweeps(cfg, t, tick);
    var t4 := Confirm(cfg, z, Long, tick).0;
    var t5 := Confirm(cfg, t4, Short, tick).0;
    var t6 := Invalidate(t5, Long, tick.candle);
    SetupsInForce(cfg, t, tick, d, s);
    if d == Long {
      ConfirmLeaves(cfg, z, d, tick, s);
      OtherConfirms(cfg, t4, d, tick);
      InvalidateLeaves(t5, d, tick.candle, s);
      OtherInvalidates(t6, d, tick.candle);
    } else {
      OtherConfirms(cfg, z, d, tick);
      ConfirmLeaves(cfg, t4, d, tick, s);
      OtherInvalidates(t5, d, tick.candle);
      InvalidateLeaves(t6, d, tick.candle, s);
    }
  }

  /** Outside the sessions an evaluation leaves setups and attempts alone. */
  lemma OutOfSessionKeeps(cfg: IctConfig, t: Tracker, tick: Tick)
    requires !tick.inSession
    ensures var (u, new_) := Advance(cfg, t, tick);
      u.longSetup == t.longSetup && u.shortSetup == t.shortSetup && u.attempts == t.attempts && u.idx == t.idx + 1 && new_ == []
  {
    hide UpdateStructure;
    StructureKeepsSetups(cfg, t.(idx := t.idx + 1), tick.candle, tick.atr);
    StructureKeepsAttempts(cfg, t.(idx := t.idx + 1), tick.candle, tick.atr);
  }

  lemma SameTargetsAfter(cfg: IctConfig, z: Tracker, tick: Tick)
    ensures var t4 := Confirm(cfg, z, Long, tick).0;
      var t5 := Confirm(cfg, t4, Short, tick).0;
      && SameTargets(z, t4)
      && SameTargets(z, Invalidate(Invalidate(t5, Long, tick.candle), Short, tick.candle))
  {
    hide Confirmation, BuildSignal, Round2;
  }
}
