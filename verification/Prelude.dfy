/** Types and arithmetic shared by the models of the market-structure, execution and
    risk code. Prices are exact reals; an absent value (Python `None`, numpy NaN) is `None`. */
module Prelude {

  datatype Option<+T> = None | Some(value: T)

  /** The outcome of code that may raise. */
  datatype Result<+T> = Success(value: T) | Raised(error: Error)

  datatype Error = IndexError | ValueError | RuntimeError

  datatype Direction = Long | Short

  /** `time` is the candle's open time in minutes since the epoch (UTC). */
  datatype Candle = Candle(time: int, open: real, high: real, low: real, close: real)

  /** What `Candle.model_post_init` accepts. */
  predicate ValidCandle(c: Candle) {
    && 0.0 < c.low
    && c.low <= c.open <= c.high
    && c.low <= c.close <= c.high
  }

  ghost predicate ValidCandles(cs: seq<Candle>) {
    forall i :: 0 <= i < |cs| ==> ValidCandle(cs[i])
  }

  function Abs(x: real): real {
    if x < 0.0 then -x else x
  }

  function Max(x: real, y: real): real {
    if x < y then y else x
  }

  function Min(x: real, y: real): real {
    if y < x then y else x
  }

  function Highs(cs: seq<Candle>): (r: seq<real>)
    ensures |r| == |cs|
  {
    seq(|cs|, i requires 0 <= i < |cs| => cs[i].high)
  }

  function Lows(cs: seq<Candle>): (r: seq<real>)
    ensures |r| == |cs|
  {
    seq(|cs|, i requires 0 <= i < |cs| => cs[i].low)
  }

  function Closes(cs: seq<Candle>): (r: seq<real>)
    ensures |r| == |cs|
  {
    seq(|cs|, i requires 0 <= i < |cs| => cs[i].close)
  }

  function Opens(cs: seq<Candle>): (r: seq<real>)
    ensures |r| == |cs|
  {
    seq(|cs|, i requires 0 <= i < |cs| => cs[i].open)
  }

  /** Python's `round` to an integer: ties go to the even neighbour. */
  function RoundHalfEven(x: real): (r: int)
    ensures -0.5 <= x - r as real <= 0.5
  {
    var n := x.Floor;
    var f := x - n as real;
    if f < 0.5 || (f == 0.5 && n % 2 == 0) then n else n + 1
  }

  /** `round(x, 2)` in exact arithmetic. */
  function Round2(x: real): (r: real)
    ensures -0.005 <= x - r <= 0.005
  {
    RoundHalfEven(x * 100.0) as real / 100.0
  }

  predicate WholeCents(x: real) {
    (x * 100.0).Floor as real == x * 100.0
  }

  lemma Round2OfWholeCents(x: real)
    requires WholeCents(x)
    ensures Round2(x) == x
  {
  }

  lemma Round2IsWholeCents(x: real)
    ensures WholeCents(Round2(x)) && Round2(Round2(x)) == Round2(x)
  {
    var n := RoundHalfEven(x * 100.0);
    assert Round2(x) * 100.0 == n as real;
    assert (n as real).Floor == n;
  }

  /** Distance, and bounds that are attained. */
  lemma ExtremesAre(x: real, y: real)
    ensures Abs(x) >= x && Abs(x) >= -x && (Abs(x) == x || Abs(x) == -x)
    ensures Max(x, y) >= x && Max(x, y) >= y && (Max(x, y) == x || Max(x, y) == y)
    ensures Min(x, y) <= x && Min(x, y) <= y && (Min(x, y) == x || Min(x, y) == y)
  {
  }

  /** No integer is nearer than the rounded one; of two as near, it is the even one. */
  lemma RoundsToNearestEven(x: real, n: int)
    ensures var r := RoundHalfEven(x);
      var off, other := Abs(x - r as real), Abs(x - n as real);
      off <= other && (off == other && n != r ==> r % 2 == 0)
  {
    var r := RoundHalfEven(x);
    if n > r {
      assert n >= r + 1 && n as real - x >= 0.5;
    } else if n < r {
      assert n <= r - 1 && x - n as real >= 0.5;
    }
  }

  /** The columns of a history hold the candles' own figures. */
  lemma ColumnsAre(cs: seq<Candle>, i: nat)
    requires i < |cs|
    ensures Opens(cs)[i] == cs[i].open && Highs(cs)[i] == cs[i].high && Lows(cs)[i] == cs[i].low && Closes(cs)[i] == cs[i].close
  {
  }
}
