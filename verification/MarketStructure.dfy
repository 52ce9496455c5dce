/** Structure breaks of a candle history: ATR, swings and break-of-structure together
    (services/strategy/indicators.py). */
module MarketStructure {
  import opened Prelude
  import opened Indicators
  import opened Structure

  const ATR_PERIOD: nat := 14

  function SwingsOf(cs: seq<Candle>, floorMult: real): seq<Swing> {
    Swings(Highs(cs), Lows(cs), AtrArray(cs, ATR_PERIOD), floorMult)
  }

  function PivotsIn(cs: seq<Candle>, floorMult: real, kind: Kind): (ps: seq<Pivot>)
    ensures Sorted(ps)
  {
    SwingsArePivots(kind, Highs(cs), Lows(cs), AtrArray(cs, ATR_PERIOD), floorMult, if |cs| < 2 then 0 else |cs| - 2);
    Pivots(SwingsOf(cs, floorMult), kind)
  }

  /** `detect_bos` applied to the swings of the history. */
  function BosOf(cs: seq<Candle>, floorMult: real): seq<Bos> {
    EventsBelow(Closes(cs), PivotsIn(cs, floorMult, High), PivotsIn(cs, floorMult, Low), |cs|)
  }

  // ---------- structure never repaints ----------

  lemma {:induction false} SwingsBelowCausal(h: seq<real>, l: seq<real>, a: seq<Option<real>>, floorMult: real, k: nat, m: nat)
    requires |h| == |l| == |a| && k <= |h| && (m == 0 || m + 2 <= k)
    ensures SwingsBelow(h[..k], l[..k], a[..k], floorMult, m) == SwingsBelow(h, l, a, floorMult, m)
  {
    hide TallEnough;
    if m > 2 {
      SwingsBelowCausal(h, l, a, floorMult, k, m - 1);
      SwingsAtCausal(h, l, a, floorMult, k, m - 1);
    }
  }

  lemma SwingsAtCausal(h: seq<real>, l: seq<real>, a: seq<Option<real>>, floorMult: real, k: nat, i: nat)
    requires |h| == |l| == |a| && 2 <= i && i + 2 < k <= |h|
    ensures SwingsAt(h[..k], l[..k], a[..k], floorMult, i) == SwingsAt(h, l, a, floorMult, i)
  {
    hide TallEnough;
  }

  /** The swings that a longer history adds all lie at or above the cut. */
  lemma {:induction false} LaterSwings(h: seq<real>, l: seq<real>, a: seq<Option<real>>, floorMult: real, m: nat, n: nat,
                                       kind: Kind)
    requires |h| == |l| == |a| && (n == 0 || n + 2 <= |h|) && m <= n
    ensures var ps, qs := Pivots(SwingsBelow(h, l, a, floorMult, m), kind), Pivots(SwingsBelow(h, l, a, floorMult, n), kind);
      ps <= qs && forall p :: |ps| <= p < |qs| ==> qs[p].idx >= m
  {
    hide IsSwing, SwingsAt;
    if m < n && n > 2 {
      LaterSwings(h, l, a, floorMult, m, n - 1, kind);
      PivotsConcat(SwingsBelow(h, l, a, floorMult, n - 1), SwingsAt(h, l, a, floorMult, n - 1), kind);
      PivotsAt(kind, h, l, a, floorMult, n - 1);
    }
  }

  lemma ArraysOfPrefix(cs: seq<Candle>, k: nat)
    requires k <= |cs|
    ensures Highs(cs[..k]) == Highs(cs)[..k] && Lows(cs[..k]) == Lows(cs)[..k]
    ensures AtrArray(cs[..k], ATR_PERIOD) == AtrArray(cs, ATR_PERIOD)[..k]
  {
    AtrCausal(cs, ATR_PERIOD, k);
  }

  lemma PivotsBelow(kind: Kind, h: seq<real>, l: seq<real>, a: seq<Option<real>>, floorMult: real, m: nat)
    requires |h| == |l| == |a| && (m == 0 || m + 2 <= |h|)
    ensures var ps := Pivots(SwingsBelow(h, l, a, floorMult, m), kind);
      Sorted(ps) && forall p :: 0 <= p < |ps| ==> ps[p].idx < m
  {
    hide IsSwing;
    SwingsArePivots(kind, h, l, a, floorMult, m);
  }

  /** Of the pivots below `n`, those confirmed at bar `k - 1` are the pivots below `k - 2`. */
  lemma ConfirmedBelow(kind: Kind, h: seq<real>, l: seq<real>, a: seq<Option<real>>, floorMult: real, k: nat, m: nat, n: nat)
    requires |h| == |l| == |a| && (n == 0 || n + 2 <= |h|) && m <= n && k >= 1
    requires m == (if k < 2 then 0 else k - 2)
    ensures var ps, qs := Pivots(SwingsBelow(h, l, a, floorMult, m), kind), Pivots(SwingsBelow(h, l, a, floorMult, n), kind);
      Sorted(qs) && Confirmed(qs, k - 1) == |ps| && ps == qs[..|ps|]
  {
    hide SwingsBelow, Pivots, Confirmed;
    PivotsBelow(kind, h, l, a, floorMult, m);
    PivotsBelow(kind, h, l, a, floorMult, n);
    LaterSwings(h, l, a, floorMult, m, n, kind);
    ConfirmedIs(Pivots(SwingsBelow(h, l, a, floorMult, n), kind), k - 1, |Pivots(SwingsBelow(h, l, a, floorMult, m), kind)|);
  }

  /** The pivots of a prefix are those of the whole history that its last bar confirms. */
  lemma PivotsOfPrefix(cs: seq<Candle>, floorMult: real, kind: Kind, k: nat)
    requires 1 <= k <= |cs|
    ensures PivotsIn(cs[..k], floorMult, kind)
         == PivotsIn(cs, floorMult, kind)[..Confirmed(PivotsIn(cs, floorMult, kind), k - 1)]
  {
    hide SwingsBelow, Pivots, Confirmed, AtrArray, Highs, Lows;
    var h, l, a := Highs(cs), Lows(cs), AtrArray(cs, ATR_PERIOD);
    ArraysOfPrefix(cs, k);
    var m := if k < 2 then 0 else k - 2;
    SwingsBelowCausal(h, l, a, floorMult, k, m);
    ConfirmedBelow(kind, h, l, a, floorMult, k, m, if |cs| < 2 then 0 else |cs| - 2);
  }

  lemma ReferenceOfPrefix(side: Side, closes: seq<real>, ps: seq<Pivot>, k: nat, i: nat)
    requires Sorted(ps) && i < k <= |closes|
    ensures var qs := ps[..Confirmed(ps, k - 1)];
      Sorted(qs) && Reference(side, closes[..k], qs, i) == Reference(side, closes, ps, i)
  {
    var d := Confirmed(ps, k - 1);
    var qs := ps[..d];
    var c := Confirmed(ps, i);
    ConfirmedIff(ps, i);
    ConfirmedIff(ps, k - 1);
    assert c > 0 ==> ps[c - 1].idx + 2 <= i;
    ConfirmedIs(qs, i, c);
    if c > 0 {
      assert qs[..c] == ps[..c];
      assert closes[..k][ps[0].idx + 2..i] == closes[ps[0].idx + 2..i];
    }
  }

  lemma {:induction false} EventsOfPrefix(closes: seq<real>, highs: seq<Pivot>, lows: seq<Pivot>, k: nat, m: nat)
    requires Sorted(highs) && Sorted(lows) && m <= k && 1 <= k <= |closes|
    ensures var hs, ls := highs[..Confirmed(highs, k - 1)], lows[..Confirmed(lows, k - 1)];
      Sorted(hs) && Sorted(ls)
      && EventsBelow(closes[..k], hs, ls, m) == EventsBelow(closes, highs, lows, m)
  {
    hide Reference;
    if m > 0 {
      EventsOfPrefix(closes, highs, lows, k, m - 1);
      ReferenceOfPrefix(Bull, closes, highs, k, m - 1);
      ReferenceOfPrefix(Bear, closes, lows, k, m - 1);
    }
  }

  lemma {:induction false} EventsSplit(closes: seq<real>, highs: seq<Pivot>, lows: seq<Pivot>, m: nat, n: nat)
    requires Sorted(highs) && Sorted(lows) && m <= n <= |closes|
    ensures var a, b := EventsBelow(closes, highs, lows, m), EventsBelow(closes, highs, lows, n);
      && a <= b
      && (forall j :: 0 <= j < |a| ==> b[j].idx < m)
      && (forall j :: |a| <= j < |b| ==> m <= b[j].idx < n)
    decreases m + n
  {
    hide Reference;
    if m < n {
      EventsSplit(closes, highs, lows, m, n - 1);
    } else if n > 0 {
      EventsSplit(closes, highs, lows, m - 1, n - 1);
    }
  }

  /** Structure never repaints: what the first `k` candles show is exactly the part of the full
      history's events that lies below `k`. */
  lemma NoRepaint(cs: seq<Candle>, floorMult: real, k: nat)
    requires k <= |cs|
    ensures var seen, all := BosOf(cs[..k], floorMult), BosOf(cs, floorMult);
      && seen <= all
      && (forall j :: 0 <= j < |seen| ==> all[j].idx < k)
      && (forall j :: |seen| <= j < |all| ==> all[j].idx >= k)
  {
    hide PivotsIn, EventsBelow;
    var highs, lows := PivotsIn(cs, floorMult, High), PivotsIn(cs, floorMult, Low);
    EventsSplit(Closes(cs), highs, lows, k, |cs|);
    if k == 0 {
      NoEventsYet(Closes(cs), highs, lows);
      NoEventsYet(Closes(cs[..k]), PivotsIn(cs[..k], floorMult, High), PivotsIn(cs[..k], floorMult, Low));
    } else {
      PivotsOfPrefix(cs, floorMult, High, k);
      PivotsOfPrefix(cs, floorMult, Low, k);
      EventsOfPrefix(Closes(cs), highs, lows, k, k);
      assert Closes(cs[..k]) == Closes(cs)[..k];
    }
  }

  lemma NoEventsYet(closes: seq<real>, highs: seq<Pivot>, lows: seq<Pivot>)
    requires Sorted(highs) && Sorted(lows)
    ensures EventsBelow(closes, highs, lows, 0) == []
  {
  }

  // ---------- at most one event per bar ----------

  lemma FirstPivot(cs: seq<Candle>, floorMult: real, kind: Kind)
    requires PivotsIn(cs, floorMult, kind) != []
    ensures var p := PivotsIn(cs, floorMult, kind)[0];
      && 2 <= p.idx && p.idx + 2 < |cs|
      && (kind == High ==> p.level == cs[p.idx].high && Peak(Highs(cs), p.idx))
      && (kind == Low ==> p.level == cs[p.idx].low && Trough(Lows(cs), p.idx))
  {
    hide TallEnough, WindowMax, WindowMin;
    SwingsArePivots(kind, Highs(cs), Lows(cs), AtrArray(cs, ATR_PERIOD), floorMult, if |cs| < 2 then 0 else |cs| - 2);
  }

  /** A close cannot be above every confirmed swing high and below every confirmed swing low. */
  lemma NotBothSides(cs: seq<Candle>, floorMult: real, i: nat)
    requires ValidCandles(cs) && i < |cs|
    requires Breaks(Bull, Closes(cs), PivotsIn(cs, floorMult, High), i)
    ensures !Breaks(Bear, Closes(cs), PivotsIn(cs, floorMult, Low), i)
  {
    hide PivotsIn;
    var highs, lows := PivotsIn(cs, floorMult, High), PivotsIn(cs, floorMult, Low);
    if lows != [] && lows[0].idx + 2 <= i {
      FirstPivot(cs, floorMult, High);
      FirstPivot(cs, floorMult, Low);
      var a, b := highs[0].idx, lows[0].idx;
      assert Beyond(Bull, cs[i].close, highs[0].level);
      assert ValidCandle(cs[a]) && ValidCandle(cs[b]);
      if b >= a + 2 {
        assert Beyond(Bull, Closes(cs)[i], Closes(cs)[b]);
      } else if a >= b + 2 {
        assert !Beyond(Bear, Closes(cs)[i], Closes(cs)[a]);
      }
    }
  }

  ghost predicate OnePerBar(events: seq<Bos>, n: nat) {
    && (forall j :: 0 <= j < |events| ==> events[j].idx < n)
    && (forall a, b :: 0 <= a < b < |events| ==> events[a].idx < events[b].idx)
  }

  lemma {:induction false} OneEventBelow(cs: seq<Candle>, floorMult: real, n: nat)
    requires ValidCandles(cs) && n <= |cs|
    ensures OnePerBar(EventsBelow(Closes(cs), PivotsIn(cs, floorMult, High), PivotsIn(cs, floorMult, Low), n), n)
  {
    hide PivotsIn, Reference, Breaks;
    if n > 0 {
      OneEventBelow(cs, floorMult, n - 1);
      var highs, lows := PivotsIn(cs, floorMult, High), PivotsIn(cs, floorMult, Low);
      EventIffBreaks(Bull, Closes(cs), highs, n - 1);
      EventIffBreaks(Bear, Closes(cs), lows, n - 1);
      if Breaks(Bull, Closes(cs), highs, n - 1) {
        NotBothSides(cs, floorMult, n - 1);
      }
    }
  }

  /** On valid candles the events have strictly increasing bars: no bar breaks both sides. */
  lemma OneEventPerBar(cs: seq<Candle>, floorMult: real)
    requires ValidCandles(cs)
    ensures var events := BosOf(cs, floorMult);
      forall a, b :: 0 <= a < b < |events| ==> events[a].idx < events[b].idx
  {
    OneEventBelow(cs, floorMult, |cs|);
    assert OnePerBar(BosOf(cs, floorMult), |cs|);
  }

  // ---------- first opposite break ----------

  function FirstOf(events: seq<Bos>, side: Side): Option<nat> {
    if events == [] then None
    else if events[0].side == side then Some(events[0].idx)
    else FirstOf(events[1..], side)
  }

  function Opposite(direction: Direction): Side {
    if direction == Long then Bear else Bull
  }

  /** `detect_opposite_bos`: the first event of the opposite side. The ATR raises on the four
      lengths from 10 to 13. */
  function OppositeBos(cs: seq<Candle>, direction: Direction, floorMult: real): Result<Option<nat>> {
    if |cs| < 10 then Success(None)
    else if |cs| < ATR_PERIOD then Raised(IndexError)
    else Success(FirstOf(BosOf(cs, floorMult), Opposite(direction)))
  }

  lemma {:induction false} FirstOfConcat(a: seq<Bos>, b: seq<Bos>, side: Side)
    ensures FirstOf(a + b, side) == if FirstOf(a, side).Some? then FirstOf(a, side) else FirstOf(b, side)
  {
    if a == [] {
      assert a + b == b;
    } else {
      assert (a + b)[1..] == a[1..] + b;
      FirstOfConcat(a[1..], b, side);
    }
  }

  function SideOf(side: Side, highs: seq<Pivot>, lows: seq<Pivot>): seq<Pivot> {
    if side == Bull then highs else lows
  }

  lemma FirstAt(closes: seq<real>, highs: seq<Pivot>, lows: seq<Pivot>, n: nat, side: Side)
    requires Sorted(highs) && Sorted(lows) && n < |closes|
    ensures FirstOf(EventsBelow(closes, highs, lows, n + 1), side)
         == if FirstOf(EventsBelow(closes, highs, lows, n), side).Some?
            then FirstOf(EventsBelow(closes, highs, lows, n), side)
            else if EventAt(side, closes, SideOf(side, highs, lows), n) != [] then Some(n) else None
  {
    hide Reference;
    var before := EventsBelow(closes, highs, lows, n);
    var bull, bear := EventAt(Bull, closes, highs, n), EventAt(Bear, closes, lows, n);
    FirstOfConcat(before + bull, bear, side);
    FirstOfConcat(before, bull, side);
    assert bull != [] ==> bull[1..] == [];
    assert bear != [] ==> bear[1..] == [];
  }

  lemma {:induction false} FirstStays(closes: seq<real>, highs: seq<Pivot>, lows: seq<Pivot>, m: nat, n: nat, side: Side)
    requires Sorted(highs) && Sorted(lows) && m <= n <= |closes|
    requires FirstOf(EventsBelow(closes, highs, lows, m), side).Some?
    ensures FirstOf(EventsBelow(closes, highs, lows, n), side) == FirstOf(EventsBelow(closes, highs, lows, m), side)
  {
    hide EventsBelow;
    if m < n {
      FirstStays(closes, highs, lows, m, n - 1, side);
      FirstAt(closes, highs, lows, n - 1, side);
    }
  }

  /** The scan of one side up to its first break; the reference is never moved to a close. */
  method FirstBreak(side: Side, closes: seq<real>, highs: seq<Pivot>, lows: seq<Pivot>) returns (r: Option<nat>)
    requires Sorted(highs) && Sorted(lows)
    ensures r == FirstOf(EventsBelow(closes, highs, lows, |closes|), side)
  {
    hide Extreme, EventsBelow, FirstOf;
    var ps := SideOf(side, highs, lows);
    var p := 0;
    var ref: Option<real> := None;
    NoneYet(closes, highs, lows, side);
    for i := 0 to |closes|
      invariant p == if i == 0 then 0 else Confirmed(ps, i - 1)
      invariant Admissible(closes, ps, p, i) && ref == ReferenceOf(side, closes, ps, p, i)
      invariant FirstOf(EventsBelow(closes, highs, lows, i), side) == None
    {
      p, ref := Admit(side, closes, ps, p, ref, i);
      FirstAt(closes, highs, lows, i, side);
      if ref.Some? && Beyond(side, closes[i], ref.value) {
        FirstStays(closes, highs, lows, i + 1, |closes|, side);
        return Some(i);
      }
      KeepReference(side, closes, ps, i);
    }
    return None;
  }

  lemma NoneYet(closes: seq<real>, highs: seq<Pivot>, lows: seq<Pivot>, side: Side)
    requires Sorted(highs) && Sorted(lows)
    ensures FirstOf(EventsBelow(closes, highs, lows, 0), side) == None
  {
  }

  method DetectOppositeBos(cs: seq<Candle>, direction: Direction, floorMult: real) returns (r: Result<Option<nat>>)
    ensures r == OppositeBos(cs, direction, floorMult)
  {
    hide EventsBelow, FirstOf;
    if |cs| < 10 {
      return Success(None);
    }
    var atr := Indicators.Atr(cs, ATR_PERIOD);
    if atr.Raised? {
      return Raised(atr.error);
    }
    var swings := FractalSwings(Highs(cs), Lows(cs), atr.value, floorMult);
    var swingHighs, swingLows := SplitSwings(swings);
    PivotsAreSplit(cs, floorMult);
    var first := FirstBreak(Opposite(direction), Closes(cs), swingHighs, swingLows);
    return Success(first);
  }

  lemma PivotsAreSplit(cs: seq<Candle>, floorMult: real)
    ensures PivotsIn(cs, floorMult, High) == Pivots(SwingsOf(cs, floorMult), High)
    ensures PivotsIn(cs, floorMult, Low) == Pivots(SwingsOf(cs, floorMult), Low)
  {
  }

  /** Without a break, the close of bar `i` leaves the reference alone. */
  lemma KeepReference(side: Side, closes: seq<real>, ps: seq<Pivot>, i: nat)
    requires Sorted(ps) && i < |closes|
    requires var ref := Reference(side, closes, ps, i); ref.None? || !Beyond(side, closes[i], ref.value)
    ensures Admissible(closes, ps, Confirmed(ps, i), i + 1)
    ensures ReferenceOf(side, closes, ps, Confirmed(ps, i), i + 1) == Reference(side, closes, ps, i)
  {
    hide Extreme;
    ConfirmedAdmissible(closes, ps, i, i);
    if Confirmed(ps, i) > 0 {
      AdmitClose(side, closes, ps, Confirmed(ps, i), i);
    }
  }

  /** The early exit is the first bar at which the closed form of the opposite side holds. */
  lemma OppositeBosIsFirst(cs: seq<Candle>, direction: Direction, floorMult: real)
    requires |cs| >= ATR_PERIOD
    ensures var side := Opposite(direction);
      var ps := PivotsIn(cs, floorMult, if side == Bull then High else Low);
      match OppositeBos(cs, direction, floorMult).value
      case Some(i) => i < |cs| && Breaks(side, Closes(cs), ps, i)
                      && forall j: nat :: j < i ==> !Breaks(side, Closes(cs), ps, j)
      case None => forall j: nat :: j < |cs| ==> !Breaks(side, Closes(cs), ps, j)
  {
    hide PivotsIn, EventsBelow;
    var highs, lows := PivotsIn(cs, floorMult, High), PivotsIn(cs, floorMult, Low);
    FirstBreakBelow(Closes(cs), highs, lows, |cs|, Opposite(direction));
  }

  /** A long leaves at the first close below every confirmed swing low and every close since the first
      confirmation. */
  lemma LongLeavesBelow(cs: seq<Candle>, floorMult: real)
    requires |cs| >= ATR_PERIOD
    ensures var lows := PivotsIn(cs, floorMult, Low);
      match OppositeBos(cs, Long, floorMult).value
      case Some(i) => i < |cs| && ClosesBelow(Closes(cs), lows, i) && forall j: nat :: j < i ==> !ClosesBelow(Closes(cs), lows, j)
      case None => forall j: nat :: j < |cs| ==> !ClosesBelow(Closes(cs), lows, j)
  {
    OppositeBosIsFirst(cs, Long, floorMult);
    var lows := PivotsIn(cs, floorMult, Low);
    forall j: nat | j < |cs|
      ensures Breaks(Bear, Closes(cs), lows, j) <==> ClosesBelow(Closes(cs), lows, j)
    {
      BreaksIs(Closes(cs), lows, j);
    }
    hide PivotsIn, OppositeBos, Breaks, ClosesBelow;
  }

  /** A short leaves at the first close above every confirmed swing high and every close since. */
  lemma ShortLeavesAbove(cs: seq<Candle>, floorMult: real)
    requires |cs| >= ATR_PERIOD
    ensures var highs := PivotsIn(cs, floorMult, High);
      match OppositeBos(cs, Short, floorMult).value
      case Some(i) => i < |cs| && ClosesAbove(Closes(cs), highs, i) && forall j: nat :: j < i ==> !ClosesAbove(Closes(cs), highs, j)
      case None => forall j: nat :: j < |cs| ==> !ClosesAbove(Closes(cs), highs, j)
  {
    OppositeBosIsFirst(cs, Short, floorMult);
    var highs := PivotsIn(cs, floorMult, High);
    forall j: nat | j < |cs|
      ensures Breaks(Bull, Closes(cs), highs, j) <==> ClosesAbove(Closes(cs), highs, j)
    {
      BreaksIs(Closes(cs), highs, j);
    }
    hide PivotsIn, OppositeBos, Breaks, ClosesAbove;
  }

  lemma {:induction false} FirstBreakBelow(closes: seq<real>, highs: seq<Pivot>, lows: seq<Pivot>, n: nat, side: Side)
    requires Sorted(highs) && Sorted(lows) && n <= |closes|
    ensures var ps := SideOf(side, highs, lows);
      match FirstOf(EventsBelow(closes, highs, lows, n), side)
      case Some(i) => i < n && Breaks(side, closes, ps, i) && forall j: nat :: j < i ==> !Breaks(side, closes, ps, j)
      case None => forall j: nat :: j < n ==> !Breaks(side, closes, ps, j)
  {
    hide EventAt, Breaks;
    if n > 0 {
      FirstBreakBelow(closes, highs, lows, n - 1, side);
      FirstAt(closes, highs, lows, n - 1, side);
      EventIffBreaks(side, closes, SideOf(side, highs, lows), n - 1);
    }
  }

  /** An early exit, once seen, never moves when more candles arrive. */
  lemma OppositeBosStable(cs: seq<Candle>, direction: Direction, floorMult: real, k: nat)
    requires ATR_PERIOD <= k <= |cs|
    requires OppositeBos(cs[..k], direction, floorMult).value.Some?
    ensures OppositeBos(cs, direction, floorMult) == OppositeBos(cs[..k], direction, floorMult)
  {
    hide BosOf;
    NoRepaint(cs, floorMult, k);
    var seen, all := BosOf(cs[..k], floorMult), BosOf(cs, floorMult);
    assert all == seen + all[|seen|..];
    FirstOfConcat(seen, all[|seen|..], Opposite(direction));
  }

  /** The search for a structure break finds nothing in fewer than ten candles and raises on ten to
      thirteen. */
  lemma OppositeBosRaisesIff(cs: seq<Candle>, direction: Direction, floorMult: real)
    ensures OppositeBos(cs, direction, floorMult).Raised? <==> 10 <= |cs| <= 13
    ensures OppositeBos(cs, direction, floorMult).Raised? ==> OppositeBos(cs, direction, floorMult).error == IndexError
    ensures |cs| < 10 ==> OppositeBos(cs, direction, floorMult) == Success(None)
  {
  }
}
