/** Attempts per level of the ICT tracker: what every candle conserves, over any stream. */
module IctAttempts {
  import opened Prelude
  import opened IctSnapshot
  import opened IctTracker

  /** A run of the tracker, with the keys of every setup it opened and every signal it emitted. */
  datatype Audit = Audit(t: Tracker, created: multiset<Key>, signals: seq<Signal>)

  function OpenedKey(cfg: IctConfig, t: Tracker, d: Direction, tick: Tick): multiset<Key> {
    match Opened(cfg, t, d, tick.candle, tick.h1)
    case None => multiset{}
    case Some(s) => multiset{KeyOf(d, s.level)}
  }

  function OpenedIn(cfg: IctConfig, t0: Tracker, tick: Tick): multiset<Key> {
    var t1 := UpdateStructure(cfg, t0.(idx := t0.idx + 1), tick.candle, tick.atr);
    if !tick.inSession then multiset{}
    else
      var t2 := Expire(cfg, Expire(cfg, t1, Long), Short);
      OpenedKey(cfg, t2, Long, tick) + OpenedKey(cfg, Sweep(cfg, t2, Long, tick.candle, tick.h1), Short, tick)
  }

  function Run(cfg: IctConfig, ticks: seq<Tick>): Audit {
    if ticks == [] then Audit(Fresh(), multiset{}, [])
    else
      var a, tick := Run(cfg, ticks[..|ticks| - 1]), ticks[|ticks| - 1];
      var (t, signals) := Advance(cfg, a.t, tick);
      Audit(t, a.created + OpenedIn(cfg, a.t, tick), a.signals + signals)
  }

  function SignalKey(s: Signal): Key {
    (s.direction, s.sweepLevel)
  }

  function SignalCount(signals: seq<Signal>, key: Key): nat {
    if signals == [] then 0
    else SignalCount(signals[..|signals| - 1], key) + (if SignalKey(signals[|signals| - 1]) == key then 1 else 0)
  }

  function ActiveCount(t: Tracker, key: Key): nat {
    var s := SetupOf(t, key.0);
    if IsActive(s) && KeyOf(key.0, s.value.level) == key then 1 else 0
  }

  /** Every setup ever opened on a level is either a consumed attempt or the active setup, there
      are at most `maxAttempts` of them, and each signal consumed its own attempt. */
  ghost predicate Conserved(cfg: IctConfig, t: Tracker, created: multiset<Key>, signals: seq<Signal>) {
    forall key :: KeyConserved(cfg, t, created, signals, key)
  }

  ghost predicate KeyConserved(cfg: IctConfig, t: Tracker, created: multiset<Key>, signals: seq<Signal>, key: Key) {
    && created[key] == Attempts(t.attempts, key) + ActiveCount(t, key)
    && (created[key] == 0 || created[key] <= cfg.maxAttempts)
    && SignalCount(signals, key) <= Attempts(t.attempts, key)
  }

  lemma RetireConserves(cfg: IctConfig, t: Tracker, created: multiset<Key>, signals: seq<Signal>, d: Direction, s: Setup,
                        new_: seq<Signal>)
    requires Conserved(cfg, t, created, signals)
    requires IsActive(SetupOf(t, d)) && SetupOf(t, d).value.level == s.level && !s.active
    requires |new_| <= 1 && forall n :: n in new_ ==> SignalKey(n) == KeyOf(d, s.level)
    ensures Conserved(cfg, Retire(t, d, s), created, signals + new_)
  {
    var t' := Retire(t, d, s);
    forall key
      ensures KeyConserved(cfg, t', created, signals + new_, key)
    {
      assert KeyConserved(cfg, t, created, signals, key);
      CountAppend(signals, new_, key);
    }
  }

  lemma CountAppend(signals: seq<Signal>, new_: seq<Signal>, key: Key)
    requires |new_| <= 1
    ensures SignalCount(signals + new_, key)
         == SignalCount(signals, key) + (if new_ != [] && SignalKey(new_[0]) == key then 1 else 0)
  {
    if new_ == [] {
      assert signals + new_ == signals;
    } else {
      assert (signals + new_)[..|signals|] == signals;
    }
  }

  lemma ExpireConserves(cfg: IctConfig, t: Tracker, created: multiset<Key>, signals: seq<Signal>, d: Direction)
    requires Conserved(cfg, t, created, signals)
    ensures Conserved(cfg, Expire(cfg, t, d), created, signals)
  {
    hide Conserved;
    var s := SetupOf(t, d);
    if Expire(cfg, t, d) != t {
      RetireConserves(cfg, t, created, signals, d, s.value.(active := false), []);
      assert signals + [] == signals;
    }
  }

  lemma InvalidateConserves(cfg: IctConfig, t: Tracker, created: multiset<Key>, signals: seq<Signal>, d: Direction, c: Candle)
    requires Conserved(cfg, t, created, signals)
    ensures Conserved(cfg, Invalidate(t, d, c), created, signals)
  {
    hide Conserved;
    var s := SetupOf(t, d);
    if Invalidate(t, d, c) != t {
      RetireConserves(cfg, t, created, signals, d, s.value.(active := false), []);
      assert signals + [] == signals;
    }
  }

  lemma ConfirmConserves(cfg: IctConfig, t: Tracker, created: multiset<Key>, signals: seq<Signal>, d: Direction, tick: Tick)
    requires Conserved(cfg, t, created, signals)
    ensures var (t', new_) := Confirm(cfg, t, d, tick); Conserved(cfg, t', created, signals + new_)
  {
    hide Conserved, SelectPlusOne, RewardRatio, TakeProfit;
    if Confirmation(cfg, t, d, tick).Some? {
      var (t', new_) := Confirm(cfg, t, d, tick);
      var s := SetupOf(t, d).value.(confirmed := true, active := false,
                                    structural := Some(Confirmation(cfg, t, d, tick).value.structural));
      RetireConserves(cfg, t, created, signals, d, s, new_);
    } else {
      assert signals + [] == signals;
    }
  }

  lemma SweepConserves(cfg: IctConfig, t: Tracker, created: multiset<Key>, signals: seq<Signal>, d: Direction, tick: Tick)
    requires Conserved(cfg, t, created, signals)
    ensures Conserved(cfg, Sweep(cfg, t, d, tick.candle, tick.h1), created + OpenedKey(cfg, t, d, tick), signals)
  {
    hide Structure.Extreme, Swept;
    var o := Opened(cfg, t, d, tick.candle, tick.h1);
    if o.Some? {
      var t' := WithSetup(t, d, o.value);
      var created' := created + multiset{KeyOf(d, o.value.level)};
      assert Attempts(t.attempts, KeyOf(d, o.value.level)) < cfg.maxAttempts;
      hide Opened;
      forall key
        ensures KeyConserved(cfg, t', created', signals, key)
      {
        assert KeyConserved(cfg, t, created, signals, key);
      }
    } else {
      assert created + multiset{} == created;
    }
  }

  lemma StructureConserves(cfg: IctConfig, t: Tracker, created: multiset<Key>, signals: seq<Signal>, tick: Tick)
    requires Conserved(cfg, t, created, signals)
    ensures Conserved(cfg, UpdateStructure(cfg, t.(idx := t.idx + 1), tick.candle, tick.atr), created, signals)
  {
    hide AddTarget, Excluded, Max, Min, MiddleIsHighest, MiddleIsLowest;
    var t' := UpdateStructure(cfg, t.(idx := t.idx + 1), tick.candle, tick.atr);
    assert t'.attempts == t.attempts && t'.longSetup == t.longSetup && t'.shortSetup == t.shortSetup;
    forall key
      ensures KeyConserved(cfg, t', created, signals, key)
    {
      assert KeyConserved(cfg, t, created, signals, key);
    }
  }

  lemma AdvanceConserves(cfg: IctConfig, t0: Tracker, created: multiset<Key>, signals: seq<Signal>, tick: Tick)
    requires Conserved(cfg, t0, created, signals)
    ensures var (t, new_) := Advance(cfg, t0, tick);
      Conserved(cfg, t, created + OpenedIn(cfg, t0, tick), signals + new_)
  {
    hide Conserved, UpdateStructure, Expire, Sweep, Confirm, Invalidate, OpenedKey;
    var t1 := UpdateStructure(cfg, t0.(idx := t0.idx + 1), tick.candle, tick.atr);
    StructureConserves(cfg, t0, created, signals, tick);
    if !tick.inSession {
      assert created + multiset{} == created && signals + [] == signals;
    } else {
      ExpireConserves(cfg, t1, created, signals, Long);
      ExpireConserves(cfg, Expire(cfg, t1, Long), created, signals, Short);
      var t2 := Expire(cfg, Expire(cfg, t1, Long), Short);
      var o1 := OpenedKey(cfg, t2, Long, tick);
      SweepConserves(cfg, t2, created, signals, Long, tick);
      var t2' := Sweep(cfg, t2, Long, tick.candle, tick.h1);
      var o2 := OpenedKey(cfg, t2', Short, tick);
      SweepConserves(cfg, t2', created + o1, signals, Short, tick);
      assert created + o1 + o2 == created + (o1 + o2);
      var t3 := Sweep(cfg, t2', Short, tick.candle, tick.h1);
      ConfirmConserves(cfg, t3, created + (o1 + o2), signals, Long, tick);
      var (t4, longs) := Confirm(cfg, t3, Long, tick);
      ConfirmConserves(cfg, t4, created + (o1 + o2), signals + longs, Short, tick);
      var (t5, shorts) := Confirm(cfg, t4, Short, tick);
      assert signals + longs + shorts == signals + (longs + shorts);
      InvalidateConserves(cfg, t5, created + (o1 + o2), signals + (longs + shorts), Long, tick.candle);
      InvalidateConserves(cfg, Invalidate(t5, Long, tick.candle), created + (o1 + o2), signals + (longs + shorts), Short,
                          tick.candle);
    }
  }

  /** Attempt conservation over any candle stream. */
  lemma {:induction false} AttemptsConserved(cfg: IctConfig, ticks: seq<Tick>)
    ensures var a := Run(cfg, ticks); Conserved(cfg, a.t, a.created, a.signals)
  {
    hide Advance, OpenedIn;
    if ticks != [] {
      AttemptsConserved(cfg, ticks[..|ticks| - 1]);
      var a := Run(cfg, ticks[..|ticks| - 1]);
      AdvanceConserves(cfg, a.t, a.created, a.signals, ticks[|ticks| - 1]);
    }
  }

  /** No level ever yields more signals than it has attempts. */
  lemma SignalsPerLevelBounded(cfg: IctConfig, ticks: seq<Tick>, d: Direction, level: real)
    ensures SignalCount(Run(cfg, ticks).signals, KeyOf(d, level)) <= (if cfg.maxAttempts < 0 then 0 else cfg.maxAttempts)
  {
    AttemptsConserved(cfg, ticks);
    var a := Run(cfg, ticks);
    assert KeyConserved(cfg, a.t, a.created, a.signals, KeyOf(d, level));
  }
}
