/** Fractal swings and break-of-structure events (services/strategy/indicators.py).

    A bull event is a close beyond the running reference high, a bear event a close beyond the
    running reference low. The two sides mirror each other, so the definitions take the side. */
module Structure {
  import opened Prelude
  import opened Indicators

  datatype Kind = High | Low

  datatype Swing = Swing(kind: Kind, idx: nat, level: real)

  datatype Pivot = Pivot(idx: nat, level: real)

  datatype Side = Bull | Bear

  datatype Bos = Bos(side: Side, idx: nat, level: real)

  // ---------- fractal swings ----------

  predicate Peak(x: seq<real>, i: nat)
    requires 2 <= i && i + 2 < |x|
  {
    x[i] > x[i - 2] && x[i] > x[i - 1] && x[i] > x[i + 1] && x[i] > x[i + 2]
  }

  predicate Trough(x: seq<real>, i: nat)
    requires 2 <= i && i + 2 < |x|
  {
    x[i] < x[i - 2] && x[i] < x[i - 1] && x[i] < x[i + 1] && x[i] < x[i + 2]
  }

  function WindowMax(x: seq<real>, i: nat): real
    requires 2 <= i && i + 2 < |x|
  {
    Max(Max(Max(Max(x[i - 2], x[i - 1]), x[i]), x[i + 1]), x[i + 2])
  }

  function WindowMin(x: seq<real>, i: nat): real
    requires 2 <= i && i + 2 < |x|
  {
    Min(Min(Min(Min(x[i - 2], x[i - 1]), x[i]), x[i + 1]), x[i + 2])
  }

  /** A comparison with a NaN ATR is false. */
  predicate TallEnough(height: real, atr: Option<real>, floorMult: real) {
    atr.Some? && height >= floorMult * atr.value
  }

  predicate IsSwing(kind: Kind, highs: seq<real>, lows: seq<real>, atr: seq<Option<real>>, floorMult: real, i: nat)
    requires |highs| == |lows| == |atr| && 2 <= i && i + 2 < |highs|
  {
    match kind
    case High => Peak(highs, i) && TallEnough(highs[i] - WindowMax(lows, i), atr[i], floorMult)
    case Low => Trough(lows, i) && TallEnough(WindowMin(highs, i) - lows[i], atr[i], floorMult)
  }

  function SwingsAt(highs: seq<real>, lows: seq<real>, atr: seq<Option<real>>, floorMult: real, i: nat): seq<Swing>
    requires |highs| == |lows| == |atr| && 2 <= i && i + 2 < |highs|
  {
    (if IsSwing(High, highs, lows, atr, floorMult, i) then [Swing(High, i, highs[i])] else [])
    + (if IsSwing(Low, highs, lows, atr, floorMult, i) then [Swing(Low, i, lows[i])] else [])
  }

  /** The swings at indices below `m`, in index order. */
  function SwingsBelow(highs: seq<real>, lows: seq<real>, atr: seq<Option<real>>, floorMult: real, m: nat): seq<Swing>
    requires |highs| == |lows| == |atr| && (m == 0 || m + 2 <= |highs|)
  {
    if m <= 2 then []
    else SwingsBelow(highs, lows, atr, floorMult, m - 1) + SwingsAt(highs, lows, atr, floorMult, m - 1)
  }

  function Swings(highs: seq<real>, lows: seq<real>, atr: seq<Option<real>>, floorMult: real): seq<Swing>
    requires |highs| == |lows| == |atr|
  {
    SwingsBelow(highs, lows, atr, floorMult, if |highs| < 2 then 0 else |highs| - 2)
  }

  method FractalSwings(highs: seq<real>, lows: seq<real>, atr: seq<Option<real>>, floorMult: real)
    returns (out: seq<Swing>)
    requires |highs| == |lows| == |atr|
    ensures out == Swings(highs, lows, atr, floorMult)
  {
    hide TallEnough, WindowMax, WindowMin;
    var n := |highs|;
    out := [];
    var i := 2;
    while i < n - 2
      invariant 2 <= i && (i <= n - 2 || i == 2)
      invariant out == SwingsBelow(highs, lows, atr, floorMult, if n < 4 then 0 else i)
    {
      var h := highs[i];
      if h > highs[i - 2] && h > highs[i - 1] && h > highs[i + 1] && h > highs[i + 2] {
        var base := WindowMax(lows, i);
        if TallEnough(h - base, atr[i], floorMult) {
          out := out + [Swing(High, i, h)];
        }
      }
      var low := lows[i];
      if low < lows[i - 2] && low < lows[i - 1] && low < lows[i + 1] && low < lows[i + 2] {
        var base := WindowMin(highs, i);
        if TallEnough(base - low, atr[i], floorMult) {
          out := out + [Swing(Low, i, low)];
        }
      }
      i := i + 1;
    }
  }

  /** The pivots of one kind, as `split_swings` separates them. */
  function Pivots(swings: seq<Swing>, kind: Kind): seq<Pivot> {
    if swings == [] then []
    else
      var last := swings[|swings| - 1];
      Pivots(swings[..|swings| - 1], kind) + (if last.kind == kind then [Pivot(last.idx, last.level)] else [])
  }

  method SplitSwings(swings: seq<Swing>) returns (highs: seq<Pivot>, lows: seq<Pivot>)
    ensures highs == Pivots(swings, High) && lows == Pivots(swings, Low)
  {
    highs, lows := [], [];
    for i := 0 to |swings|
      invariant highs == Pivots(swings[..i], High) && lows == Pivots(swings[..i], Low)
    {
      assert swings[..i + 1][..i] == swings[..i];
      if swings[i].kind == High {
        highs := highs + [Pivot(swings[i].idx, swings[i].level)];
      } else {
        lows := lows + [Pivot(swings[i].idx, swings[i].level)];
      }
    }
    assert swings[..|swings|] == swings;
  }

  lemma {:induction false} PivotsConcat(a: seq<Swing>, b: seq<Swing>, kind: Kind)
    ensures Pivots(a + b, kind) == Pivots(a, kind) + Pivots(b, kind)
  {
    if b == [] {
      assert a + b == a;
    } else {
      assert (a + b)[..|a + b| - 1] == a + b[..|b| - 1];
      PivotsConcat(a, b[..|b| - 1], kind);
    }
  }

  ghost predicate Sorted(ps: seq<Pivot>) {
    forall p, q :: 0 <= p < q < |ps| ==> ps[p].idx < ps[q].idx
  }

  /** What one side of the swing list is: exactly the qualifying bars below `m`, in order,
      each at its own extreme. */
  ghost predicate PivotsOf(kind: Kind, highs: seq<real>, lows: seq<real>, atr: seq<Option<real>>, floorMult: real,
                           m: nat, ps: seq<Pivot>)
    requires |highs| == |lows| == |atr| && (m == 0 || m + 2 <= |highs|)
  {
    && Sorted(ps)
    && (forall p :: 0 <= p < |ps| ==>
          && 2 <= ps[p].idx < m
          && IsSwing(kind, highs, lows, atr, floorMult, ps[p].idx)
          && ps[p].level == (if kind == High then highs else lows)[ps[p].idx])
    && (forall i :: 2 <= i < m && IsSwing(kind, highs, lows, atr, floorMult, i) ==>
          exists p :: 0 <= p < |ps| && ps[p].idx == i)
  }

  lemma PivotsAt(kind: Kind, highs: seq<real>, lows: seq<real>, atr: seq<Option<real>>, floorMult: real, i: nat)
    requires |highs| == |lows| == |atr| && 2 <= i && i + 2 < |highs|
    ensures Pivots(SwingsAt(highs, lows, atr, floorMult, i), kind)
         == if IsSwing(kind, highs, lows, atr, floorMult, i)
            then [Pivot(i, (if kind == High then highs else lows)[i])] else []
  {
    hide IsSwing;
    var a := if IsSwing(High, highs, lows, atr, floorMult, i) then [Swing(High, i, highs[i])] else [];
    var b := if IsSwing(Low, highs, lows, atr, floorMult, i) then [Swing(Low, i, lows[i])] else [];
    PivotsConcat(a, b, kind);
  }

  lemma PivotsOfStep(kind: Kind, highs: seq<real>, lows: seq<real>, atr: seq<Option<real>>, floorMult: real,
                     m: nat, before: seq<Pivot>, after: seq<Pivot>)
    requires |highs| == |lows| == |atr| && 2 <= m && m + 2 < |highs|
    requires PivotsOf(kind, highs, lows, atr, floorMult, m, before)
    requires after == before + (if IsSwing(kind, highs, lows, atr, floorMult, m)
                                then [Pivot(m, (if kind == High then highs else lows)[m])] else [])
    ensures PivotsOf(kind, highs, lows, atr, floorMult, m + 1, after)
  {
    hide IsSwing;
    forall i | 2 <= i < m + 1 && IsSwing(kind, highs, lows, atr, floorMult, i)
      ensures exists p :: 0 <= p < |after| && after[p].idx == i
    {
      if i == m {
        assert after[|before|].idx == i;
      } else {
        var p :| 0 <= p < |before| && before[p].idx == i;
        assert after[p].idx == i;
      }
    }
  }

  lemma {:induction false} SwingsArePivots(kind: Kind, highs: seq<real>, lows: seq<real>, atr: seq<Option<real>>,
                                           floorMult: real, m: nat)
    requires |highs| == |lows| == |atr| && (m == 0 || m + 2 <= |highs|)
    ensures PivotsOf(kind, highs, lows, atr, floorMult, m, Pivots(SwingsBelow(highs, lows, atr, floorMult, m), kind))
  {
    hide IsSwing, SwingsAt, PivotsOf;
    if m > 2 {
      SwingsArePivots(kind, highs, lows, atr, floorMult, m - 1);
      var before := SwingsBelow(highs, lows, atr, floorMult, m - 1);
      PivotsConcat(before, SwingsAt(highs, lows, atr, floorMult, m - 1), kind);
      PivotsAt(kind, highs, lows, atr, floorMult, m - 1);
      PivotsOfStep(kind, highs, lows, atr, floorMult, m - 1, Pivots(before, kind),
                   Pivots(SwingsBelow(highs, lows, atr, floorMult, m), kind));
    } else {
      NoPivots(kind, highs, lows, atr, floorMult, m);
    }
  }

  lemma NoPivots(kind: Kind, highs: seq<real>, lows: seq<real>, atr: seq<Option<real>>, floorMult: real, m: nat)
    requires |highs| == |lows| == |atr| && (m == 0 || m + 2 <= |highs|) && m <= 2
    ensures PivotsOf(kind, highs, lows, atr, floorMult, m, [])
  {
  }

  ghost predicate HasPivot(ps: seq<Pivot>, i: nat) {
    exists p :: 0 <= p < |ps| && ps[p].idx == i
  }

  ghost predicate HighestOfFive(highs: seq<real>, i: nat)
    requires 2 <= i && i + 2 < |highs|
  {
    forall k :: i - 2 <= k <= i + 2 && k != i ==> highs[k] < highs[i]
  }

  ghost predicate StandsAbove(lows: seq<real>, i: nat, edge: real, margin: real)
    requires 2 <= i && i + 2 < |lows|
  {
    forall k :: i - 2 <= k <= i + 2 ==> edge - lows[k] >= margin
  }

  lemma WindowMaxIs(x: seq<real>, i: nat)
    requires 2 <= i && i + 2 < |x|
    ensures exists k :: i - 2 <= k <= i + 2 && x[k] == WindowMax(x, i)
    ensures forall k :: i - 2 <= k <= i + 2 ==> x[k] <= WindowMax(x, i)
  {
    var w := WindowMax(x, i);
    assert w == x[i - 2] || w == x[i - 1] || w == x[i] || w == x[i + 1] || w == x[i + 2];
  }

  lemma WindowMaxClears(x: seq<real>, i: nat, edge: real, margin: real)
    requires 2 <= i && i + 2 < |x|
    ensures edge - WindowMax(x, i) >= margin <==> StandsAbove(x, i, edge, margin)
  {
    WindowMaxIs(x, i);
    hide WindowMax;
    var k :| i - 2 <= k <= i + 2 && x[k] == WindowMax(x, i);
  }

  lemma PeakIs(x: seq<real>, i: nat)
    requires 2 <= i && i + 2 < |x|
    ensures Peak(x, i) <==> HighestOfFive(x, i)
  {
  }

  lemma IsHighIff(highs: seq<real>, lows: seq<real>, atr: seq<Option<real>>, floorMult: real, i: nat)
    requires |highs| == |lows| == |atr| && 2 <= i && i + 2 < |highs|
    ensures IsSwing(High, highs, lows, atr, floorMult, i)
       <==> HighestOfFive(highs, i) && atr[i].Some? && StandsAbove(lows, i, highs[i], floorMult * atr[i].value)
  {
    hide WindowMax, Peak, HighestOfFive, StandsAbove;
    PeakIs(highs, i);
    if atr[i].Some? {
      var margin := floorMult * atr[i].value;
      WindowMaxClears(lows, i, highs[i], margin);
    }
  }

  /** A bar is a swing high exactly when its high is above those of its four neighbours and stands above
      every low of the five bars by the multiple of its ATR. */
  lemma SwingHighIff(highs: seq<real>, lows: seq<real>, atr: seq<Option<real>>, floorMult: real, i: nat)
    requires |highs| == |lows| == |atr|
    ensures HasPivot(Pivots(Swings(highs, lows, atr, floorMult), High), i)
       <==> 2 <= i && i + 2 < |highs|
            && HighestOfFive(highs, i) && atr[i].Some? && StandsAbove(lows, i, highs[i], floorMult * atr[i].value)
  {
    var m := if |highs| < 2 then 0 else |highs| - 2;
    SwingsArePivots(High, highs, lows, atr, floorMult, m);
    hide SwingsBelow, Pivots, IsSwing, HighestOfFive, StandsAbove;
    if 2 <= i && i + 2 < |highs| {
      assert i < m;
      IsHighIff(highs, lows, atr, floorMult, i);
    }
  }

  ghost predicate LowestOfFive(lows: seq<real>, i: nat)
    requires 2 <= i && i + 2 < |lows|
  {
    forall k :: i - 2 <= k <= i + 2 && k != i ==> lows[k] > lows[i]
  }

  ghost predicate StandsBelow(highs: seq<real>, i: nat, edge: real, margin: real)
    requires 2 <= i && i + 2 < |highs|
  {
    forall k :: i - 2 <= k <= i + 2 ==> highs[k] - edge >= margin
  }

  lemma WindowMinIs(x: seq<real>, i: nat)
    requires 2 <= i && i + 2 < |x|
    ensures exists k :: i - 2 <= k <= i + 2 && x[k] == WindowMin(x, i)
    ensures forall k :: i - 2 <= k <= i + 2 ==> x[k] >= WindowMin(x, i)
  {
    var w := WindowMin(x, i);
    assert w == x[i - 2] || w == x[i - 1] || w == x[i] || w == x[i + 1] || w == x[i + 2];
  }

  lemma WindowMinClears(x: seq<real>, i: nat, edge: real, margin: real)
    requires 2 <= i && i + 2 < |x|
    ensures WindowMin(x, i) - edge >= margin <==> StandsBelow(x, i, edge, margin)
  {
    WindowMinIs(x, i);
    hide WindowMin;
    var k :| i - 2 <= k <= i + 2 && x[k] == WindowMin(x, i);
  }

  lemma TroughIs(x: seq<real>, i: nat)
    requires 2 <= i && i + 2 < |x|
    ensures Trough(x, i) <==> LowestOfFive(x, i)
  {
  }

  lemma IsLowIff(highs: seq<real>, lows: seq<real>, atr: seq<Option<real>>, floorMult: real, i: nat)
    requires |highs| == |lows| == |atr| && 2 <= i && i + 2 < |highs|
    ensures IsSwing(Low, highs, lows, atr, floorMult, i)
       <==> LowestOfFive(lows, i) && atr[i].Some? && StandsBelow(highs, i, lows[i], floorMult * atr[i].value)
  {
    hide WindowMin, Trough, LowestOfFive, StandsBelow;
    TroughIs(lows, i);
    if atr[i].Some? {
      var margin := floorMult * atr[i].value;
      WindowMinClears(highs, i, lows[i], margin);
    }
  }

  /** A bar is a swing low exactly when its low is below those of its four neighbours and stands below
      every high of the five bars by the multiple of its ATR. */
  lemma SwingLowIff(highs: seq<real>, lows: seq<real>, atr: seq<Option<real>>, floorMult: real, i: nat)
    requires |highs| == |lows| == |atr|
    ensures HasPivot(Pivots(Swings(highs, lows, atr, floorMult), Low), i)
       <==> 2 <= i && i + 2 < |highs|
            && LowestOfFive(lows, i) && atr[i].Some? && StandsBelow(highs, i, lows[i], floorMult * atr[i].value)
  {
    var m := if |highs| < 2 then 0 else |highs| - 2;
    SwingsArePivots(Low, highs, lows, atr, floorMult, m);
    hide SwingsBelow, Pivots, IsSwing, LowestOfFive, StandsBelow;
    if 2 <= i && i + 2 < |highs| {
      assert i < m;
      IsLowIff(highs, lows, atr, floorMult, i);
    }
  }

  // ---------- break of structure ----------

  predicate Beyond(side: Side, x: real, y: real) {
    if side == Bull then x > y else x < y
  }

  function Further(side: Side, x: real, y: real): real {
    if Beyond(side, y, x) then y else x
  }

  function Extreme(side: Side, xs: seq<real>): real
    requires xs != []
  {
    if |xs| == 1 then xs[0] else Further(side, Extreme(side, xs[..|xs| - 1]), xs[|xs| - 1])
  }

  /** How many of the pivots are confirmed at bar `i`: two candles have closed after them. */
  function Confirmed(ps: seq<Pivot>, i: nat): (c: nat)
    ensures c <= |ps|
  {
    if ps == [] then 0
    else if ps[|ps| - 1].idx + 2 <= i then |ps|
    else Confirmed(ps[..|ps| - 1], i)
  }

  lemma {:induction false} ConfirmedIff(ps: seq<Pivot>, i: nat)
    requires Sorted(ps)
    ensures forall p :: 0 <= p < |ps| ==> (p < Confirmed(ps, i) <==> ps[p].idx + 2 <= i)
  {
    if ps != [] && ps[|ps| - 1].idx + 2 > i {
      ConfirmedIff(ps[..|ps| - 1], i);
    }
  }

  lemma ConfirmedIs(ps: seq<Pivot>, i: nat, c: nat)
    requires Sorted(ps) && c <= |ps|
    requires c > 0 ==> ps[c - 1].idx + 2 <= i
    requires c < |ps| ==> ps[c].idx + 2 > i
    ensures Confirmed(ps, i) == c
  {
    ConfirmedIff(ps, i);
    var d := Confirmed(ps, i);
    assert c < |ps| ==> !(c < d);
    assert c > 0 ==> c - 1 < d;
  }

  function Levels(ps: seq<Pivot>): (r: seq<real>)
    ensures |r| == |ps|
  {
    seq(|ps|, p requires 0 <= p < |ps| => ps[p].level)
  }

  ghost predicate Admissible(closes: seq<real>, ps: seq<Pivot>, c: nat, i: nat) {
    c <= |ps| && i <= |closes| && (c > 0 ==> ps[0].idx + 2 <= i)
  }

  /** The furthest of the first `c` pivot levels and of every close from the first
      confirmation up to bar `i` (excluded). */
  function ReferenceOf(side: Side, closes: seq<real>, ps: seq<Pivot>, c: nat, i: nat): Option<real>
    requires Admissible(closes, ps, c, i)
  {
    if c == 0 then None else Some(Extreme(side, Levels(ps[..c]) + closes[ps[0].idx + 2..i]))
  }

  lemma ConfirmedAdmissible(closes: seq<real>, ps: seq<Pivot>, i: nat, k: nat)
    requires Sorted(ps) && i <= k <= |closes|
    ensures Admissible(closes, ps, Confirmed(ps, i), k)
  {
    ConfirmedIff(ps, i);
  }

  /** The level that the close of bar `i` is compared with. */
  function Reference(side: Side, closes: seq<real>, ps: seq<Pivot>, i: nat): Option<real>
    requires Sorted(ps) && i <= |closes|
  {
    ConfirmedAdmissible(closes, ps, i, i);
    ReferenceOf(side, closes, ps, Confirmed(ps, i), i)
  }

  function EventAt(side: Side, closes: seq<real>, ps: seq<Pivot>, i: nat): seq<Bos>
    requires Sorted(ps) && i < |closes|
  {
    var ref := Reference(side, closes, ps, i);
    if ref.Some? && Beyond(side, closes[i], ref.value) then [Bos(side, i, ref.value)] else []
  }

  /** The structure events at bars below `n`. */
  function EventsBelow(closes: seq<real>, highs: seq<Pivot>, lows: seq<Pivot>, n: nat): seq<Bos>
    requires Sorted(highs) && Sorted(lows) && n <= |closes|
  {
    if n == 0 then []
    else
      (EventsBelow(closes, highs, lows, n - 1)
       + EventAt(Bull, closes, highs, n - 1)
       + EventAt(Bear, closes, lows, n - 1))
  }

  lemma {:induction false} ExtremeSpec(side: Side, xs: seq<real>)
    requires xs != []
    ensures Extreme(side, xs) in xs
    ensures forall k :: 0 <= k < |xs| ==> !Beyond(side, xs[k], Extreme(side, xs))
  {
    if |xs| > 1 {
      ExtremeSpec(side, xs[..|xs| - 1]);
    }
  }

  lemma {:induction false} ExtremeInsert(side: Side, a: seq<real>, x: real, b: seq<real>)
    requires a != []
    ensures Extreme(side, a + [x] + b) == Further(side, Extreme(side, a + b), x)
  {
    if b == [] {
      assert a + [x] + b == a + [x] && a + b == a && (a + [x])[..|a|] == a;
    } else {
      var b' := b[..|b| - 1];
      ExtremeInsert(side, a, x, b');
      assert (a + [x] + b)[..|a| + |b|] == a + [x] + b';
      assert (a + b)[..|a| + |b| - 1] == a + b';
    }
  }

  /** Admitting one more pivot moves the reference to it if it is further out. */
  lemma AdmitPivot(side: Side, closes: seq<real>, ps: seq<Pivot>, c: nat, i: nat)
    requires Admissible(closes, ps, c, i) && c < |ps| && Admissible(closes, ps, c + 1, i)
    requires c == 0 ==> ps[0].idx + 2 == i
    ensures ReferenceOf(side, closes, ps, c + 1, i)
         == match ReferenceOf(side, closes, ps, c, i)
            case None => Some(ps[c].level)
            case Some(r) => Some(Further(side, r, ps[c].level))
  {
    var tail := closes[ps[0].idx + 2..i];
    assert Levels(ps[..c + 1]) + tail == Levels(ps[..c]) + [ps[c].level] + tail;
    if c > 0 {
      ExtremeInsert(side, Levels(ps[..c]), ps[c].level, tail);
    }
  }

  /** After bar `i` the reference has moved to its close if that is further out. */
  lemma AdmitClose(side: Side, closes: seq<real>, ps: seq<Pivot>, c: nat, i: nat)
    requires Admissible(closes, ps, c, i) && c > 0 && i < |closes|
    ensures ReferenceOf(side, closes, ps, c, i + 1)
         == Some(Further(side, ReferenceOf(side, closes, ps, c, i).value, closes[i]))
  {
    var xs := Levels(ps[..c]) + closes[ps[0].idx + 2..i];
    assert Levels(ps[..c]) + closes[ps[0].idx + 2..i + 1] == xs + [closes[i]];
    assert (xs + [closes[i]])[..|xs|] == xs;
  }

  /** The pointer loop of one side: admit every pivot that bar `i` confirms. */
  method Admit(side: Side, closes: seq<real>, ps: seq<Pivot>, p0: nat, ref0: Option<real>, i: nat)
    returns (p: nat, ref: Option<real>)
    requires Sorted(ps) && i < |closes|
    requires p0 == (if i == 0 then 0 else Confirmed(ps, i - 1))
    requires Admissible(closes, ps, p0, i) && ref0 == ReferenceOf(side, closes, ps, p0, i)
    ensures p == Confirmed(ps, i) && ref == Reference(side, closes, ps, i)
  {
    hide Extreme;
    p, ref := p0, ref0;
    if i > 0 {
      ConfirmedIff(ps, i - 1);
    }
    while p < |ps| && ps[p].idx + 2 <= i
      invariant p0 <= p <= |ps| && Admissible(closes, ps, p, i)
      invariant p > 0 ==> ps[p - 1].idx + 2 <= i
      invariant ref == ReferenceOf(side, closes, ps, p, i)
    {
      AdmitPivot(side, closes, ps, p, i);
      ref := if ref.None? then Some(ps[p].level) else Some(Further(side, ref.value, ps[p].level));
      p := p + 1;
    }
    ConfirmedIs(ps, i, p);
  }

  method DetectBos(closes: seq<real>, highs: seq<Pivot>, lows: seq<Pivot>) returns (events: seq<Bos>)
    requires Sorted(highs) && Sorted(lows)
    ensures events == EventsBelow(closes, highs, lows, |closes|)
  {
    hide Extreme;
    events := [];
    var hp, lp := 0, 0;
    var refHigh: Option<real>, refLow: Option<real> := None, None;
    for i := 0 to |closes|
      invariant hp == if i == 0 then 0 else Confirmed(highs, i - 1)
      invariant lp == if i == 0 then 0 else Confirmed(lows, i - 1)
      invariant Admissible(closes, highs, hp, i) && refHigh == ReferenceOf(Bull, closes, highs, hp, i)
      invariant Admissible(closes, lows, lp, i) && refLow == ReferenceOf(Bear, closes, lows, lp, i)
      invariant events == EventsBelow(closes, highs, lows, i)
    {
      hp, refHigh := Admit(Bull, closes, highs, hp, refHigh, i);
      lp, refLow := Admit(Bear, closes, lows, lp, refLow, i);
      ConfirmedAdmissible(closes, highs, i, i);
      ConfirmedAdmissible(closes, lows, i, i);
      if hp > 0 {
        AdmitClose(Bull, closes, highs, hp, i);
      }
      if lp > 0 {
        AdmitClose(Bear, closes, lows, lp, i);
      }
      if refHigh.Some? && closes[i] > refHigh.value {
        events := events + [Bos(Bull, i, refHigh.value)];
        refHigh := Some(closes[i]);
      }
      if refLow.Some? && closes[i] < refLow.value {
        events := events + [Bos(Bear, i, refLow.value)];
        refLow := Some(closes[i]);
      }
    }
  }

  /** The closed form: the close of bar `i` is beyond every confirmed pivot and beyond every
      close since the first confirmation. */
  ghost predicate Breaks(side: Side, closes: seq<real>, ps: seq<Pivot>, i: nat)
    requires i < |closes|
  {
    && ps != [] && ps[0].idx + 2 <= i
    && (forall p :: 0 <= p < |ps| && ps[p].idx + 2 <= i ==> Beyond(side, closes[i], ps[p].level))
    && (forall j :: ps[0].idx + 2 <= j < i ==> Beyond(side, closes[i], closes[j]))
  }

  lemma EventIffBreaks(side: Side, closes: seq<real>, ps: seq<Pivot>, i: nat)
    requires Sorted(ps) && i < |closes|
    ensures EventAt(side, closes, ps, i) != [] <==> Breaks(side, closes, ps, i)
  {
    ConfirmedIff(ps, i);
    var c := Confirmed(ps, i);
    if c > 0 {
      var f := ps[0].idx + 2;
      var xs := Levels(ps[..c]) + closes[f..i];
      ExtremeSpec(side, xs);
      if Beyond(side, closes[i], Extreme(side, xs)) {
        forall p | 0 <= p < |ps| && ps[p].idx + 2 <= i
          ensures Beyond(side, closes[i], ps[p].level)
        {
          assert xs[p] == ps[p].level;
        }
        forall j | f <= j < i
          ensures Beyond(side, closes[i], closes[j])
        {
          assert xs[c + j - f] == closes[j];
        }
      } else {
        var k :| 0 <= k < |xs| && xs[k] == Extreme(side, xs);
        assert if k < c then ps[k].level == xs[k] else closes[f + k - c] == xs[k];
      }
    }
  }

  lemma {:induction false} EventsMembers(closes: seq<real>, highs: seq<Pivot>, lows: seq<Pivot>, n: nat, e: Bos)
    requires Sorted(highs) && Sorted(lows) && n <= |closes|
    ensures e in EventsBelow(closes, highs, lows, n)
       <==> e.idx < n && e in EventAt(e.side, closes, if e.side == Bull then highs else lows, e.idx)
  {
    hide Reference;
    if n > 0 {
      EventsMembers(closes, highs, lows, n - 1, e);
      assert forall x :: x in EventAt(Bull, closes, highs, n - 1) ==> x.idx == n - 1 && x.side == Bull;
      assert forall x :: x in EventAt(Bear, closes, lows, n - 1) ==> x.idx == n - 1 && x.side == Bear;
    }
  }

  /** `detect_bos` reports a break of `side` at bar `i` exactly when the closed form holds, once,
      and the broken level is the furthest confirmed pivot or close. */
  lemma BosClosedForm(closes: seq<real>, highs: seq<Pivot>, lows: seq<Pivot>, side: Side, i: nat)
    requires Sorted(highs) && Sorted(lows) && i < |closes|
    ensures var ps := if side == Bull then highs else lows;
      && ((exists e :: e in EventsBelow(closes, highs, lows, |closes|) && e.side == side && e.idx == i)
            <==> Breaks(side, closes, ps, i))
      && (forall e :: e in EventsBelow(closes, highs, lows, |closes|) && e.side == side && e.idx == i ==>
            && ((exists p :: 0 <= p < |ps| && ps[p].idx + 2 <= i && e.level == ps[p].level)
                || (exists j :: ps[0].idx + 2 <= j < i && e.level == closes[j]))
            && (forall p :: 0 <= p < |ps| && ps[p].idx + 2 <= i ==> !Beyond(side, ps[p].level, e.level))
            && (forall j :: ps[0].idx + 2 <= j < i ==> !Beyond(side, closes[j], e.level)))
  {
    var ps := if side == Bull then highs else lows;
    EventIffBreaks(side, closes, ps, i);
    var here := EventAt(side, closes, ps, i);
    if here != [] {
      EventsMembers(closes, highs, lows, |closes|, here[0]);
    }
    forall e | e in EventsBelow(closes, highs, lows, |closes|) && e.side == side && e.idx == i
      ensures e in here && LevelIsFurthest(side, closes, ps, i, e.level)
    {
      EventsMembers(closes, highs, lows, |closes|, e);
      ReferenceIsFurthest(side, closes, ps, i);
    }
  }

  ghost predicate HasEvent(events: seq<Bos>, side: Side, i: nat) {
    exists e :: e in events && e.side == side && e.idx == i
  }

  /** The close is above every swing high that two candles have confirmed and above every close since
      the first of those confirmations. */
  ghost predicate ClosesAbove(closes: seq<real>, highs: seq<Pivot>, i: nat)
    requires i < |closes|
  {
    && highs != [] && highs[0].idx + 2 <= i
    && (forall p :: 0 <= p < |highs| && highs[p].idx + 2 <= i ==> highs[p].level < closes[i])
    && (forall j :: highs[0].idx + 2 <= j < i ==> closes[j] < closes[i])
  }

  /** The close is below every confirmed swing low and every close since. */
  ghost predicate ClosesBelow(closes: seq<real>, lows: seq<Pivot>, i: nat)
    requires i < |closes|
  {
    && lows != [] && lows[0].idx + 2 <= i
    && (forall p :: 0 <= p < |lows| && lows[p].idx + 2 <= i ==> closes[i] < lows[p].level)
    && (forall j :: lows[0].idx + 2 <= j < i ==> closes[i] < closes[j])
  }

  lemma BreaksIs(closes: seq<real>, ps: seq<Pivot>, i: nat)
    requires i < |closes|
    ensures Breaks(Bull, closes, ps, i) <==> ClosesAbove(closes, ps, i)
    ensures Breaks(Bear, closes, ps, i) <==> ClosesBelow(closes, ps, i)
  {
  }

  /** Which bars break upwards and which downwards. */
  lemma BreakIff(closes: seq<real>, highs: seq<Pivot>, lows: seq<Pivot>, i: nat)
    requires Sorted(highs) && Sorted(lows) && i < |closes|
    ensures HasEvent(EventsBelow(closes, highs, lows, |closes|), Bull, i) <==> ClosesAbove(closes, highs, i)
    ensures HasEvent(EventsBelow(closes, highs, lows, |closes|), Bear, i) <==> ClosesBelow(closes, lows, i)
  {
    BosClosedForm(closes, highs, lows, Bull, i);
    BosClosedForm(closes, highs, lows, Bear, i);
    BreaksIs(closes, highs, i);
    BreaksIs(closes, lows, i);
    hide EventsBelow, Breaks, ClosesAbove, ClosesBelow;
  }

  ghost predicate LevelIsFurthest(side: Side, closes: seq<real>, ps: seq<Pivot>, i: nat, level: real)
    requires ps != [] && i < |closes|
  {
    && ((exists p :: 0 <= p < |ps| && ps[p].idx + 2 <= i && level == ps[p].level)
        || (exists j :: ps[0].idx + 2 <= j < i && level == closes[j]))
    && (forall p :: 0 <= p < |ps| && ps[p].idx + 2 <= i ==> !Beyond(side, ps[p].level, level))
    && (forall j :: ps[0].idx + 2 <= j < i ==> !Beyond(side, closes[j], level))
  }

  lemma ReferenceIsFurthest(side: Side, closes: seq<real>, ps: seq<Pivot>, i: nat)
    requires Sorted(ps) && i < |closes| && Reference(side, closes, ps, i).Some?
    ensures ps != [] && ps[0].idx + 2 <= i
    ensures LevelIsFurthest(side, closes, ps, i, Reference(side, closes, ps, i).value)
  {
    ConfirmedIff(ps, i);
    var c := Confirmed(ps, i);
    var f := ps[0].idx + 2;
    var xs := Levels(ps[..c]) + closes[f..i];
    ExtremeSpec(side, xs);
    var k :| 0 <= k < |xs| && xs[k] == Extreme(side, xs);
    assert if k < c then ps[k].level == xs[k] else closes[f + k - c] == xs[k];
    forall p | 0 <= p < |ps| && ps[p].idx + 2 <= i
      ensures !Beyond(side, ps[p].level, Extreme(side, xs))
    {
      assert xs[p] == ps[p].level;
    }
    forall j | f <= j < i
      ensures !Beyond(side, closes[j], Extreme(side, xs))
    {
      assert xs[c + j - f] == closes[j];
    }
  }

  /** Levels of one side never repeat and never retreat: each break is at a level strictly
      beyond every earlier one. */
  lemma {:induction false} BosLevelsAdvance(closes: seq<real>, highs: seq<Pivot>, lows: seq<Pivot>, e1: Bos, e2: Bos)
    requires Sorted(highs) && Sorted(lows)
    requires e1 in EventsBelow(closes, highs, lows, |closes|) && e2 in EventsBelow(closes, highs, lows, |closes|)
    requires e1.side == e2.side && e1.idx < e2.idx
    ensures Beyond(e1.side, e2.level, e1.level)
  {
    EventsMembers(closes, highs, lows, |closes|, e1);
    EventsMembers(closes, highs, lows, |closes|, e2);
    var ps := if e1.side == Bull then highs else lows;
    ReferenceIsFurthest(e1.side, closes, ps, e1.idx);
    ReferenceIsFurthest(e1.side, closes, ps, e2.idx);
    assert !Beyond(e1.side, closes[e1.idx], e2.level);
  }
}
