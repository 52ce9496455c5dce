/** Position sizing (services/risk/service.py, `_position_size`). */
module Sizing {
  import opened Prelude
  import PaperBroker
  import Ledger

  datatype RiskConfig = RiskConfig(riskPercent: real, minRiskPercent: real, maxRiskPercent: real,
                                   contractSize: real, maxVolume: real)

  /** A rejected size is the pair of zeros in the source. */
  datatype Size = Rejected | Sized(volume: real, riskAmount: real)

  function RiskFraction(c: RiskConfig): real {
    Max(c.minRiskPercent / 100.0, Min(c.maxRiskPercent / 100.0, c.riskPercent / 100.0))
  }

  function RiskAmount(c: RiskConfig, equity: real): real {
    equity * RiskFraction(c)
  }

  function Contract(c: RiskConfig): real {
    if c.contractSize == 0.0 then 100.0 else c.contractSize
  }

  predicate Given(x: Option<real>) {
    x.Some? && x.value != 0.0
  }

  function RawVolume(risk: real, distance: real, contract: real): real
    requires distance * contract != 0.0
  {
    risk / (distance * contract)
  }

  function StepCount(raw: real, lotStep: real): int
    requires lotStep > 0.0
  {
    (raw / lotStep).Floor
  }

  /** Floor, never round up, to the lot step. */
  function ToStep(raw: real, lotStep: real): real
    requires lotStep > 0.0
  {
    Multiple(StepCount(raw, lotStep), lotStep)
  }

  lemma NonZero(x: real, y: real)
    requires x != 0.0 && y != 0.0
    ensures x * y != 0.0
  {
  }

  function PositionSize(c: RiskConfig, minLot: real, lotStep: real, price: Option<real>, sl: Option<real>, equity: Option<real>): Size
    requires lotStep > 0.0
  {
    if !Given(price) || !Given(sl) || price == sl || equity.None? then Rejected
    else
      var distance, risk := Abs(price.value - sl.value), RiskAmount(c, equity.value);
      NonZero(distance, Contract(c));
      var raw := RawVolume(risk, distance, Contract(c));
      var volume := ToStep(raw, lotStep);
      if raw < minLot || raw > c.maxVolume || volume < minLot then Rejected
      else Sized(Round2(volume), risk)
  }

  // ---------- safe and maximal ----------

  lemma Product(a: real, b: real)
    requires a >= 0.0 && b >= 0.0
    ensures a * b >= 0.0 && (a > 0.0 && b > 0.0 ==> a * b > 0.0)
  {
  }

  lemma Spread(a: real, b: real, c: real)
    ensures (a + b) * c == a * c + b * c && (a - b) * c == a * c - b * c
  {
  }

  lemma FloorBounds(raw: real, q: real, k: real, lotStep: real)
    requires lotStep > 0.0 && k <= q < k + 1.0 && q * lotStep == raw
    ensures k * lotStep <= raw && raw < k * lotStep + lotStep
  {
    var below, above, m := q - k, k + 1.0 - q, k * lotStep;
    Product(below, lotStep);
    Product(above, lotStep);
    Spread(q, k, lotStep);
    Spread(k + 1.0, q, lotStep);
    Spread(k, 1.0, lotStep);
    assert below * lotStep == raw - m;
    assert above * lotStep == m + lotStep - raw;
  }

  lemma StepBounds(raw: real, lotStep: real)
    requires lotStep > 0.0
    ensures ToStep(raw, lotStep) <= raw < ToStep(raw, lotStep) + lotStep
  {
    var q := raw / lotStep;
    FloorBounds(raw, q, q.Floor as real, lotStep);
  }

  /** A whole number of lot steps. */
  ghost predicate Steps(volume: real, lotStep: real) {
    exists k: int :: volume == Multiple(k, lotStep)
  }

  function Multiple(k: int, lotStep: real): real {
    k as real * lotStep
  }

  lemma MultipleOfWholeCents(k: int, lotStep: real)
    requires WholeCents(lotStep)
    ensures WholeCents(Multiple(k, lotStep))
  {
    var n := (lotStep * 100.0).Floor;
    var m := Multiple(k, lotStep) * 100.0;
    assert m == k as real * (lotStep * 100.0);
    IntProduct(k, n);
    assert m == (k * n) as real;
  }

  lemma IntProduct(k: int, n: int)
    ensures k as real * n as real == (k * n) as real
  {
  }

  lemma CostOfVolume(volume: real, distance: real, contract: real, risk: real)
    requires distance > 0.0 && contract > 0.0
    ensures distance * contract > 0.0
    ensures volume <= RawVolume(risk, distance, contract) <==> volume * distance * contract <= risk
  {
    var u := distance * contract;
    assert u > 0.0;
    var raw := RawVolume(risk, distance, contract);
    assert raw * u == risk && volume * distance * contract == volume * u;
    assert volume <= raw ==> (raw - volume) * u >= 0.0;
    assert volume > raw ==> (volume - raw) * u > 0.0;
  }

  /** With a lot step in whole cents an accepted volume is a whole number of steps within the lot
      bounds, its stop costs at most the clamped risk, and one more step would cost more. */
  lemma SizingSafeAndMaximal(c: RiskConfig, minLot: real, lotStep: real, price: Option<real>, sl: Option<real>, equity: Option<real>)
    requires lotStep > 0.0 && WholeCents(lotStep) && Contract(c) > 0.0
    ensures match PositionSize(c, minLot, lotStep, price, sl, equity)
      case Rejected => true
      case Sized(volume, risk) =>
        var distance := Abs(price.value - sl.value);
        && risk == equity.value * RiskFraction(c)
        && minLot <= volume <= c.maxVolume
        && Steps(volume, lotStep)
        && volume * distance * Contract(c) <= risk
        && (volume + lotStep) * distance * Contract(c) > risk
  {
    hide RiskFraction, RawVolume, Round2, Contract;
    var size := PositionSize(c, minLot, lotStep, price, sl, equity);
    if size.Sized? {
      var distance, risk, contract := Abs(price.value - sl.value), RiskAmount(c, equity.value), Contract(c);
      NonZero(distance, contract);
      var raw := RawVolume(risk, distance, contract);
      var volume := ToStep(raw, lotStep);
      StepBounds(raw, lotStep);
      MultipleOfWholeCents(StepCount(raw, lotStep), lotStep);
      Round2OfWholeCents(volume);
      CostOfVolume(volume, distance, contract, risk);
      CostOfVolume(volume + lotStep, distance, contract, risk);
      assert volume == Multiple(StepCount(raw, lotStep), lotStep);
    }
  }

  /** The clamped risk fraction lies between the configured minimum and, when that is not above it,
      the configured maximum. */
  lemma RiskIsClamped(c: RiskConfig)
    requires c.minRiskPercent <= c.maxRiskPercent
    ensures c.minRiskPercent / 100.0 <= RiskFraction(c) <= c.maxRiskPercent / 100.0
  {
  }

  // ---------- why whole cents ----------

  /** A step that is not in whole cents has a multiple that rounding to cents raises. */
  lemma SomeMultipleRoundsUp(lotStep: real) returns (k: nat)
    requires lotStep > 0.0 && !WholeCents(lotStep)
    ensures k >= 1 && Round2(Multiple(k, lotStep)) > Multiple(k, lotStep)
  {
    var x := lotStep * 100.0;
    var n := x.Floor;
    var f := x - n as real;
    assert 0.0 < f < 1.0;
    if f == 0.5 {
      k := HalfRoundsUp(lotStep, n);
    } else {
      k := FirstPastHalf(f);
      MultipleSplits(k, lotStep, n, f);
      RoundsUp(Multiple(k, lotStep), k * n, Multiple(k, f));
    }
  }

  /** A half goes to the even neighbour, so an even half needs its third multiple. */
  lemma HalfRoundsUp(lotStep: real, n: int) returns (k: nat)
    requires lotStep * 100.0 == n as real + 0.5
    ensures k >= 1 && Round2(Multiple(k, lotStep)) > Multiple(k, lotStep)
  {
    hide Round2;
    k := if n % 2 == 1 then 1 else 3;
    var x := Multiple(k, lotStep);
    if n % 2 == 1 {
      assert x == lotStep;
      RoundsUp(x, n, 0.5);
    } else {
      MultipleSplits(3, lotStep, n, 0.5);
      assert Multiple(3, 0.5) == 1.5;
      var m := 3 * n + 1;
      assert x * 100.0 == m as real + 0.5 && m % 2 == 1;
      RoundsUp(x, m, 0.5);
    }
  }

  lemma MultipleSplits(k: nat, lotStep: real, n: int, f: real)
    requires lotStep * 100.0 == n as real + f
    ensures Multiple(k, lotStep) * 100.0 == (k * n) as real + Multiple(k, f)
  {
    assert Multiple(k, lotStep) * 100.0 == k as real * (n as real + f);
    Spread(n as real, f, k as real);
    IntProduct(k, n);
  }

  /** The first multiple of a fraction that passes one half is still below one. */
  lemma FirstPastHalf(f: real) returns (k: nat)
    requires 0.0 < f < 1.0 && f != 0.5
    ensures k >= 1 && 0.5 < Multiple(k, f) < 1.0
  {
    if f > 0.5 {
      k := 1;
    } else {
      StepBounds(0.5, f);
      assert 0.5 / f * f == 0.5;
      var j := (0.5 / f).Floor;
      Spread(j as real, 1.0, f);
      assert j >= 0;
      k := j + 1;
    }
  }

  lemma RoundsUp(x: real, m: int, f: real)
    requires x * 100.0 == m as real + f && (0.5 < f < 1.0 || (f == 0.5 && m % 2 == 1))
    ensures Round2(x) > x
  {
    assert (x * 100.0).Floor == m;
  }

  /** The stop of every accepted size costs at most its risk amount exactly when the lot step is in
      whole cents. */
  lemma SizingSafeIff(lotStep: real)
    requires lotStep > 0.0
    ensures (forall c, minLot, price, sl, equity | Contract(c) > 0.0 :: CostsAtMostRisk(c, minLot, lotStep, price, sl, equity))
            <==> WholeCents(lotStep)
  {
    if WholeCents(lotStep) {
      forall c, minLot, price, sl, equity | Contract(c) > 0.0
        ensures CostsAtMostRisk(c, minLot, lotStep, price, sl, equity)
      {
        SizingSafeAndMaximal(c, minLot, lotStep, price, sl, equity);
      }
    } else {
      var k := SomeMultipleRoundsUp(lotStep);
      RoundedUpCosts(lotStep, k);
    }
  }

  /** A volume that rounding raises costs more than it should. */
  lemma RoundedUpCosts(lotStep: real, k: nat)
    requires lotStep > 0.0 && k >= 1 && Round2(Multiple(k, lotStep)) > Multiple(k, lotStep)
    ensures exists c, minLot, price, sl, equity :: Contract(c) > 0.0 && !CostsAtMostRisk(c, minLot, lotStep, price, sl, equity)
  {
    var v := Multiple(k, lotStep);
    var c := RiskConfig(100.0, 0.0, 100.0, 1.0, v);
    StepsOfMultiple(k, lotStep);
    WholeRisk(c, v);
    hide RiskAmount, ToStep, RawVolume, Round2, Multiple;
    assert PositionSize(c, 0.0, lotStep, Some(2.0), Some(1.0), Some(v)) == Sized(Round2(v), v);
    assert !CostsAtMostRisk(c, 0.0, lotStep, Some(2.0), Some(1.0), Some(v));
  }

  lemma StepsOfMultiple(k: nat, lotStep: real)
    requires lotStep > 0.0 && k >= 1
    ensures var v := Multiple(k, lotStep); v > 0.0 && ToStep(v, lotStep) == v && RawVolume(v, 1.0, 1.0) == v
  {
    var v := Multiple(k, lotStep);
    Quotient(k as real, lotStep);
    assert v / lotStep == k as real && (k as real).Floor == k;
  }

  lemma WholeRisk(c: RiskConfig, v: real)
    requires c.riskPercent == 100.0 && c.minRiskPercent == 0.0 && c.maxRiskPercent == 100.0
    ensures RiskAmount(c, v) == v
  {
    assert RiskFraction(c) == 1.0;
  }

  lemma Quotient(x: real, y: real)
    requires y > 0.0
    ensures x * y / y == x
  {
  }

  predicate CostsAtMostRisk(c: RiskConfig, minLot: real, lotStep: real, price: Option<real>, sl: Option<real>, equity: Option<real>)
    requires lotStep > 0.0
  {
    match PositionSize(c, minLot, lotStep, price, sl, equity)
    case Rejected => true
    case Sized(volume, risk) => volume * Abs(price.value - sl.value) * Contract(c) <= risk
  }

  // ---------- what a stop-out costs ----------

  /** A paper stop-out of a sized trade that was filled at the signal price books at least -1 R. */
  lemma StopOutIsAtMostOneR(c: RiskConfig, minLot: real, lotStep: real, price: Option<real>, sl: Option<real>, equity: Option<real>,
                            pos: PaperBroker.Position, row: Ledger.TradeRecord)
    requires lotStep > 0.0 && WholeCents(lotStep) && Contract(c) > 0.0
    requires var size := PositionSize(c, minLot, lotStep, price, sl, equity);
      size.Sized? && pos.volume == size.volume && row.riskAmount == size.riskAmount > 0.0
    requires pos.entry == price.value && (if pos.direction == Long then sl.value < price.value else sl.value > price.value)
    ensures var trade := PaperBroker.TradeOf(pos, sl.value, PaperBroker.StopLoss, Contract(c));
      trade.pnl >= -row.riskAmount && Ledger.SettleRow(row, trade).pnlR >= -1.0
  {
    hide PositionSize, Contract, Round2, RiskFraction, RiskAmount, Steps;
    SizedIsGiven(c, minLot, lotStep, price, sl, equity);
    SizingSafeAndMaximal(c, minLot, lotStep, price, sl, equity);
    var distance := Abs(price.value - sl.value);
    var pnl := PaperBroker.Pnl(pos, sl.value, Contract(c));
    LossOf(PaperBroker.Sign(pos.direction) * (sl.value - pos.entry), distance, Contract(c), pos.volume, row.riskAmount);
    RatioBound(pnl, row.riskAmount);
  }

  lemma SizedIsGiven(c: RiskConfig, minLot: real, lotStep: real, price: Option<real>, sl: Option<real>, equity: Option<real>)
    requires lotStep > 0.0 && PositionSize(c, minLot, lotStep, price, sl, equity).Sized?
    ensures price.Some? && sl.Some? && equity.Some?
  {
  }

  lemma LossOf(move: real, distance: real, contract: real, volume: real, risk: real)
    requires move == -distance && volume * distance * contract <= risk
    ensures move * contract * volume >= -risk
  {
    assert distance * contract * volume == volume * distance * contract;
    assert move * contract * volume == -(distance * contract * volume);
  }

  lemma RatioBound(pnl: real, risk: real)
    requires risk > 0.0 && pnl >= -risk
    ensures pnl / risk >= -1.0
  {
    var q := pnl / risk;
    assert q * risk == pnl;
    assert q < -1.0 ==> (-1.0 - q) * risk > 0.0;
  }

  // ---------- exactly which sizes ----------

  /** The configured percentage, raised to the minimum or else cut to the maximum. */
  ghost predicate IsClamped(c: RiskConfig, percent: real) {
    if c.riskPercent < c.minRiskPercent || c.maxRiskPercent < c.minRiskPercent then percent == c.minRiskPercent
    else if c.riskPercent > c.maxRiskPercent then percent == c.maxRiskPercent
    else percent == c.riskPercent
  }

  lemma FractionIs(c: RiskConfig, percent: real)
    requires percent == RiskFraction(c) * 100.0
    ensures IsClamped(c, percent)
  {
  }

  /** Price and stop are given, not zero and apart, and the equity is known. */
  ghost predicate Sizable(price: Option<real>, sl: Option<real>, equity: Option<real>) {
    && price.Some? && sl.Some? && equity.Some?
    && price.value != 0.0 && sl.value != 0.0 && price.value != sl.value
  }

  /** `k` lot steps are the most that the raw volume holds. */
  ghost predicate MostSteps(raw: real, lotStep: real, k: int) {
    k as real * lotStep <= raw && raw < k as real * lotStep + lotStep
  }

  /** The stop of this volume costs exactly the risk; a missing contract size counts as 100. */
  ghost predicate Costs(c: RiskConfig, price: real, sl: real, volume: real, risk: real) {
    var distance := if price > sl then price - sl else sl - price;
    volume * (distance * (if c.contractSize == 0.0 then 100.0 else c.contractSize)) == risk
  }

  /** The raw volume risks the clamped percentage of the equity over the distance of the stop. */
  ghost predicate IsSize(c: RiskConfig, price: real, sl: real, equity: real, lotStep: real, raw: real, k: int, risk: real) {
    Costs(c, price, sl, raw, risk) && MostSteps(raw, lotStep, k)
    && exists percent :: IsClamped(c, percent) && risk * 100.0 == equity * percent
  }

  /** A size is accepted exactly when the raw volume is within the bounds and the whole steps in it reach
      the minimum, and it is those steps, rounded to cents. */
  lemma AcceptedIff(c: RiskConfig, minLot: real, lotStep: real, price: Option<real>, sl: Option<real>, equity: Option<real>)
    requires lotStep > 0.0
    ensures match PositionSize(c, minLot, lotStep, price, sl, equity)
      case Sized(volume, risk) =>
        Sizable(price, sl, equity)
        && exists raw, k: int :: IsSize(c, price.value, sl.value, equity.value, lotStep, raw, k, risk)
             && minLot <= raw <= c.maxVolume && Multiple(k, lotStep) >= minLot && volume == Round2(Multiple(k, lotStep))
      case Rejected =>
        Sizable(price, sl, equity) ==>
          exists raw, k: int, risk :: IsSize(c, price.value, sl.value, equity.value, lotStep, raw, k, risk)
             && !(minLot <= raw <= c.maxVolume && Multiple(k, lotStep) >= minLot)
  {
    hide PositionSize, Round2, RiskAmount, ToStep, RawVolume, RawOf, IsSize, Contract, StepCount, Multiple;
    if Sizable(price, sl, equity) {
      var risk := RiskAmount(c, equity.value);
      var raw := RawOf(c, price.value, sl.value, risk);
      SizeOf(c, minLot, lotStep, price, sl, equity);
      RawSizes(c, price.value, sl.value, equity.value, lotStep);
      assert IsSize(c, price.value, sl.value, equity.value, lotStep, raw, StepCount(raw, lotStep), risk);
    } else {
      Unsizable(c, minLot, lotStep, price, sl, equity);
    }
  }

  function RawOf(c: RiskConfig, price: real, sl: real, risk: real): real
    requires price != sl
  {
    NonZero(Abs(price - sl), Contract(c));
    RawVolume(risk, Abs(price - sl), Contract(c))
  }

  lemma SizeOf(c: RiskConfig, minLot: real, lotStep: real, price: Option<real>, sl: Option<real>, equity: Option<real>)
    requires lotStep > 0.0 && Sizable(price, sl, equity)
    ensures var risk := RiskAmount(c, equity.value);
      var raw := RawOf(c, price.value, sl.value, risk);
      var volume := Multiple(StepCount(raw, lotStep), lotStep);
      PositionSize(c, minLot, lotStep, price, sl, equity)
      == if raw < minLot || raw > c.maxVolume || volume < minLot then Rejected else Sized(Round2(volume), risk)
  {
    hide Round2, RiskAmount, RawVolume, StepCount, Multiple;
  }

  lemma Unsizable(c: RiskConfig, minLot: real, lotStep: real, price: Option<real>, sl: Option<real>, equity: Option<real>)
    requires lotStep > 0.0 && !Sizable(price, sl, equity)
    ensures PositionSize(c, minLot, lotStep, price, sl, equity).Rejected?
  {
    hide Round2, RiskFraction, ToStep, RawVolume, Contract, Abs;
  }

  lemma RawSizes(c: RiskConfig, price: real, sl: real, equity: real, lotStep: real)
    requires lotStep > 0.0 && price != sl
    ensures var risk := RiskAmount(c, equity);
      var raw := RawOf(c, price, sl, risk);
      IsSize(c, price, sl, equity, lotStep, raw, StepCount(raw, lotStep), risk)
  {
    var risk, percent := RiskAmount(c, equity), RiskFraction(c) * 100.0;
    FractionIs(c, percent);
    PercentOf(c, equity, percent);
    hide RiskFraction, RiskAmount, RawOf, IsClamped, StepCount, Costs;
    var raw := RawOf(c, price, sl, risk);
    RawIs(c, price, sl, risk);
    StepsIn(raw, lotStep);
    assert Costs(c, price, sl, raw, risk);
    assert MostSteps(raw, lotStep, StepCount(raw, lotStep));
    assert IsClamped(c, percent) && risk * 100.0 == equity * percent;
  }

  lemma RawIs(c: RiskConfig, price: real, sl: real, risk: real)
    requires price != sl
    ensures Costs(c, price, sl, RawOf(c, price, sl, risk), risk)
  {
    var u := Abs(price - sl) * Contract(c);
    NonZero(Abs(price - sl), Contract(c));
    assert risk / u * u == risk;
    assert u == (if price > sl then price - sl else sl - price) * (if c.contractSize == 0.0 then 100.0 else c.contractSize);
  }

  lemma PercentOf(c: RiskConfig, equity: real, percent: real)
    requires percent == RiskFraction(c) * 100.0
    ensures RiskAmount(c, equity) * 100.0 == equity * percent
  {
  }

  lemma StepsIn(raw: real, lotStep: real)
    requires lotStep > 0.0
    ensures MostSteps(raw, lotStep, (raw / lotStep).Floor) && ToStep(raw, lotStep) == Multiple(StepCount(raw, lotStep), lotStep)
  {
    StepBounds(raw, lotStep);
  }
}
