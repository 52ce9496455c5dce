/** Order blocks: the last opposite-coloured candle before a displacement that leaves a
    fair-value gap (services/strategy/indicators.py, `detect_order_blocks`). */
module OrderBlocks {
  import opened Prelude
  import opened Structure

  /** A bull block is a buy block. */
  datatype Block = Block(side: Side, idx: nat, lo: real, hi: real, dispIdx: nat)

  datatype Bodies = Bodies(opens: seq<real>, closes: seq<real>, highs: seq<real>, lows: seq<real>) {
    predicate Valid() {
      |opens| == |closes| == |highs| == |lows|
    }
  }

  datatype Params = Params(period: nat, bodyMult: real, lookback: nat)

  function Body(b: Bodies, i: nat): real
    requires b.Valid() && i < |b.closes|
  {
    Abs(b.closes[i] - b.opens[i])
  }

  function BodySum(b: Bodies, n: nat): real
    requires b.Valid() && n <= |b.closes|
  {
    if n == 0 then 0.0 else BodySum(b, n - 1) + Body(b, n - 1)
  }

  function AverageBody(sum: real, sumBefore: real, period: nat): real
    requires period >= 1
  {
    (sum - sumBefore) / period as real
  }

  predicate Displaces(body: real, average: real, bodyMult: real) {
    average > 0.0 && body >= bodyMult * average
  }

  /** A candle that neither rises nor falls counts as falling. */
  function SideOfCandle(b: Bodies, d: nat): Side
    requires b.Valid() && d < |b.closes|
  {
    if b.closes[d] > b.opens[d] then Bull else Bear
  }

  predicate Gap(b: Bodies, d: nat)
    requires b.Valid() && 2 <= d < |b.closes|
  {
    if SideOfCandle(b, d) == Bull then b.lows[d] > b.highs[d - 2] else b.highs[d] < b.lows[d - 2]
  }

  predicate OppositeColour(b: Bodies, side: Side, j: nat)
    requires b.Valid() && j < |b.closes|
  {
    if side == Bull then b.closes[j] < b.opens[j] else b.closes[j] > b.opens[j]
  }

  /** The last opposite-coloured candle in [lo, hi). */
  function LastOpposite(b: Bodies, side: Side, lo: nat, hi: nat): (r: Option<nat>)
    requires b.Valid() && hi <= |b.closes|
    ensures r.Some? ==> lo <= r.value < hi
  {
    if hi <= lo then None
    else if OppositeColour(b, side, hi - 1) then Some(hi - 1)
    else LastOpposite(b, side, lo, hi - 1)
  }

  function WindowStart(d: nat, lookback: nat): (lo: nat)
    ensures lo <= d
  {
    if lookback < d then d - lookback else 0
  }

  function BlockAt(b: Bodies, p: Params, d: nat): seq<Block>
    requires b.Valid() && p.period >= 1 && p.period <= d < |b.closes|
  {
    var average := AverageBody(BodySum(b, d), BodySum(b, d - p.period), p.period);
    if !Displaces(Body(b, d), average, p.bodyMult) || d < 2 || !Gap(b, d) then []
    else
      var side := SideOfCandle(b, d);
      match LastOpposite(b, side, WindowStart(d, p.lookback), d)
      case None => []
      case Some(j) => [Block(side, j, Min(b.opens[j], b.closes[j]), Max(b.opens[j], b.closes[j]), d)]
  }

  function BlocksBelow(b: Bodies, p: Params, n: nat): seq<Block>
    requires b.Valid() && p.period >= 1 && n <= |b.closes|
  {
    if n <= p.period then [] else BlocksBelow(b, p, n - 1) + BlockAt(b, p, n - 1)
  }

  method DetectOrderBlocks(b: Bodies, p: Params) returns (blocks: seq<Block>)
    requires b.Valid() && p.period >= 1
    ensures blocks == BlocksBelow(b, p, |b.closes|)
  {
    hide Body, AverageBody, Displaces, Gap, OppositeColour, SideOfCandle, WindowStart, Min, Max;
    var n := |b.closes|;
    var sums: seq<real> := [0.0];
    for i := 0 to n
      invariant |sums| == i + 1
      invariant forall k :: 0 <= k <= i ==> sums[k] == BodySum(b, k)
    {
      sums := sums + [sums[i] + Body(b, i)];
    }
    blocks := [];
    if n < p.period {
      return;
    }
    for d := p.period to n
      invariant blocks == BlocksBelow(b, p, d)
    {
      var average := AverageBody(sums[d], sums[d - p.period], p.period);
      if Displaces(Body(b, d), average, p.bodyMult) && d >= 2 && Gap(b, d) {
        var side := SideOfCandle(b, d);
        var lo := WindowStart(d, p.lookback);
        var j := d;
        var found: Option<nat> := None;
        while found.None? && j > lo
          invariant lo <= j <= d
          invariant found.Some? ==> found == LastOpposite(b, side, lo, d)
          invariant found.None? ==> LastOpposite(b, side, lo, d) == LastOpposite(b, side, lo, j)
          decreases j, if found.None? then 1 else 0
        {
          if OppositeColour(b, side, j - 1) {
            found := Some(j - 1);
          }
          j := j - 1;
        }
        if found.Some? {
          var k := found.value;
          blocks := blocks + [Block(side, k, Min(b.opens[k], b.closes[k]), Max(b.opens[k], b.closes[k]), d)];
        }
      }
    }
  }

  lemma {:induction false} LastOppositeIs(b: Bodies, side: Side, lo: nat, hi: nat)
    requires b.Valid() && hi <= |b.closes|
    ensures match LastOpposite(b, side, lo, hi)
      case Some(j) => lo <= j < hi && OppositeColour(b, side, j) && forall k :: j < k < hi ==> !OppositeColour(b, side, k)
      case None => forall k :: lo <= k < hi ==> !OppositeColour(b, side, k)
  {
    hide OppositeColour;
    if hi > lo && !OppositeColour(b, side, hi - 1) {
      LastOppositeIs(b, side, lo, hi - 1);
    }
  }

  /** The sum of the bodies in [lo, hi). */
  function WindowBodies(b: Bodies, lo: nat, hi: nat): real
    requires b.Valid() && lo <= hi <= |b.closes|
  {
    if lo == hi then 0.0 else WindowBodies(b, lo, hi - 1) + Body(b, hi - 1)
  }

  lemma {:induction false} WindowBySums(b: Bodies, lo: nat, hi: nat)
    requires b.Valid() && lo <= hi <= |b.closes|
    ensures WindowBodies(b, lo, hi) == BodySum(b, hi) - BodySum(b, lo)
  {
    hide Body;
    if lo < hi {
      WindowBySums(b, lo, hi - 1);
    }
  }

  /** A body is the distance between open and close. */
  lemma BodyIsDistance(b: Bodies, i: nat)
    requires b.Valid() && i < |b.closes|
    ensures Body(b, i) == if b.closes[i] >= b.opens[i] then b.closes[i] - b.opens[i] else b.opens[i] - b.closes[i]
  {
  }

  /** The body is at least the multiple of the mean of the `period` bodies before it, which are not
      all empty. */
  predicate Displacement(b: Bodies, p: Params, d: nat)
    requires b.Valid() && p.period <= d < |b.closes|
  {
    var window := WindowBodies(b, d - p.period, d);
    window > 0.0 && Body(b, d) * p.period as real >= p.bodyMult * window
  }

  lemma DisplacesIff(body: real, window: real, period: real, bodyMult: real)
    requires period > 0.0
    ensures window / period > 0.0 <==> window > 0.0
    ensures body >= bodyMult * (window / period) <==> body * period >= bodyMult * window
  {
    var mean := window / period;
    assert mean * period == window;
    assert mean > 0.0 ==> mean * period > 0.0;
    assert mean <= 0.0 ==> mean * period <= 0.0;
    var gap := body - bodyMult * mean;
    assert gap * period == body * period - bodyMult * window by {
      assert bodyMult * mean * period == bodyMult * (mean * period);
    }
    assert gap >= 0.0 ==> gap * period >= 0.0;
    assert gap < 0.0 ==> gap * period < 0.0;
  }

  lemma DisplacementIff(b: Bodies, p: Params, d: nat)
    requires b.Valid() && 1 <= p.period <= d < |b.closes|
    ensures Displaces(Body(b, d), AverageBody(BodySum(b, d), BodySum(b, d - p.period), p.period), p.bodyMult)
       <==> Displacement(b, p, d)
  {
    hide Body, BodySum, WindowBodies;
    WindowBySums(b, d - p.period, d);
    DisplacesIff(Body(b, d), WindowBodies(b, d - p.period, d), p.period as real, p.bodyMult);
  }

  /** The block is the body of the last opposite-coloured candle before a displacement, within the
      lookback, and the displacement candle leaves a gap to the candle two before it. */
  ghost predicate Genuine(b: Bodies, p: Params, block: Block)
    requires b.Valid()
  {
    && 2 <= block.dispIdx < |b.closes| && p.period <= block.dispIdx && Displacement(b, p, block.dispIdx)
    && block.idx < block.dispIdx <= block.idx + p.lookback
    && LeavesGap(b, block.side, block.dispIdx) && Against(b, block.side, block.idx)
    && (forall k :: block.idx < k < block.dispIdx ==> !Against(b, block.side, k))
    && block.lo == (if block.side == Bull then b.closes else b.opens)[block.idx]
    && block.hi == (if block.side == Bull then b.opens else b.closes)[block.idx]
  }

  /** A rising candle whose low stays above the high two candles before, or one that does not rise and
      whose high stays below the low two candles before. */
  ghost predicate LeavesGap(b: Bodies, side: Side, d: nat)
    requires b.Valid() && 2 <= d < |b.closes|
  {
    match side
    case Bull => b.closes[d] > b.opens[d] && b.lows[d] > b.highs[d - 2]
    case Bear => b.closes[d] <= b.opens[d] && b.highs[d] < b.lows[d - 2]
  }

  /** A falling candle before a rise, a rising one before a fall. */
  ghost predicate Against(b: Bodies, side: Side, j: nat)
    requires b.Valid() && j < |b.closes|
  {
    match side
    case Bull => b.closes[j] < b.opens[j]
    case Bear => b.closes[j] > b.opens[j]
  }

  lemma BlockAtIff(b: Bodies, p: Params, d: nat, block: Block)
    requires b.Valid() && 1 <= p.period <= d < |b.closes|
    ensures block in BlockAt(b, p, d) <==> Genuine(b, p, block) && block.dispIdx == d
    ensures |BlockAt(b, p, d)| <= 1
  {
    DisplacementIff(b, p, d);
    var lo, side := WindowStart(d, p.lookback), SideOfCandle(b, d);
    LastOppositeIs(b, side, lo, d);
    ColoursAre(b, side);
    if d >= 2 {
      GapIs(b, d);
    }
    hide Body, BodySum, WindowBodies, Displaces, AverageBody, Displacement, Gap, OppositeColour, LeavesGap, Against, SideOfCandle, Min, Max;
    if block.dispIdx == d && block.side == side && block.idx < d {
      BodyIs(b, side, block.idx);
    }
    var found := LastOpposite(b, side, lo, d);
    if found.Some? {
      BodyIs(b, side, found.value);
    }
  }

  lemma ColoursAre(b: Bodies, side: Side)
    requires b.Valid()
    ensures forall j: nat :: j < |b.closes| ==> (OppositeColour(b, side, j) <==> Against(b, side, j))
  {
  }

  lemma GapIs(b: Bodies, d: nat)
    requires b.Valid() && 2 <= d < |b.closes|
    ensures forall side :: LeavesGap(b, side, d) <==> side == SideOfCandle(b, d) && Gap(b, d)
  {
  }

  /** The body of a candle against the side. */
  lemma BodyIs(b: Bodies, side: Side, j: nat)
    requires b.Valid() && j < |b.closes|
    ensures Against(b, side, j) ==>
      && Min(b.opens[j], b.closes[j]) == (if side == Bull then b.closes else b.opens)[j]
      && Max(b.opens[j], b.closes[j]) == (if side == Bull then b.opens else b.closes)[j]
  {
  }

  /** The blocks found below `n` are exactly the genuine ones: every displacement with a gap and an
      opposite-coloured candle in reach has its block, and nothing else is one. */
  lemma {:induction false} BlocksAreGenuine(b: Bodies, p: Params, n: nat, block: Block)
    requires b.Valid() && p.period >= 1 && n <= |b.closes|
    ensures block in BlocksBelow(b, p, n) <==> Genuine(b, p, block) && block.dispIdx < n
  {
    hide BlockAt, Genuine;
    if n > p.period {
      BlocksAreGenuine(b, p, n - 1, block);
      BlockAtIff(b, p, n - 1, block);
      assert BlocksBelow(b, p, n) == BlocksBelow(b, p, n - 1) + BlockAt(b, p, n - 1);
    } else if Genuine(b, p, block) {
      NotTooEarly(b, p, block);
    }
  }

  lemma NotTooEarly(b: Bodies, p: Params, block: Block)
    requires b.Valid() && Genuine(b, p, block)
    ensures block.dispIdx >= p.period
  {
  }

  predicate OnePerDisplacement(blocks: seq<Block>) {
    forall i, j :: 0 <= i < j < |blocks| ==> blocks[i].dispIdx < blocks[j].dispIdx
  }

  /** One block a displacement, in order. */
  lemma {:induction false} BlocksInOrder(b: Bodies, p: Params, n: nat)
    requires b.Valid() && p.period >= 1 && n <= |b.closes|
    ensures OnePerDisplacement(BlocksBelow(b, p, n))
  {
    hide BlockAt, Genuine;
    if n > p.period {
      BlocksInOrder(b, p, n - 1);
      var front, last := BlocksBelow(b, p, n - 1), BlockAt(b, p, n - 1);
      forall i | 0 <= i < |front|
        ensures front[i].dispIdx < n - 1
      {
        BlocksAreGenuine(b, p, n - 1, front[i]);
      }
      var blocks := BlocksBelow(b, p, n);
      assert blocks == front + last;
      forall i, j | 0 <= i < j < |blocks|
        ensures blocks[i].dispIdx < blocks[j].dispIdx
      {
        BlockAtIff(b, p, n - 1, blocks[j]);
        assert i < |front|;
        assert blocks[i] == front[i];
        if j < |front| {
          assert blocks[j] == front[j];
        } else {
          assert blocks[j] == last[j - |front|];
          assert blocks[j] in last;
        }
      }
    }
  }

  /** A block is spent once a close has gone through its far edge. */
  lemma MitigatedIff(closes: seq<real>, block: Block, after: nat)
    ensures block.side == Bull ==> (!Mitigated(closes, block, after) <==> forall k :: after <= k < |closes| ==> block.lo <= closes[k])
    ensures block.side == Bear ==> (!Mitigated(closes, block, after) <==> forall k :: after <= k < |closes| ==> closes[k] <= block.hi)
  {
  }

  /** A body has closed beyond the block's far edge at or after `after`. */
  predicate Mitigated(closes: seq<real>, block: Block, after: nat) {
    exists k :: after <= k < |closes| && (if block.side == Bull then closes[k] < block.lo else closes[k] > block.hi)
  }
}
