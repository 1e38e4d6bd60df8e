// Prices, directions and candles.
module Market {
  datatype Direction = Buy | Sell

  function Opposite(d: Direction): Direction {
    if d.Buy? then Sell else Buy
  }

  datatype Candle = Candle(open: real, high: real, low: real, close: real)

  /** The consistency test every engine applies to a candle before using it. */
  predicate ValidCandle(c: Candle) {
    && 0.0 < c.open && 0.0 < c.high && 0.0 < c.low && 0.0 < c.close
    && c.high >= c.open && c.high >= c.close
    && c.low <= c.open && c.low <= c.close
  }

  predicate ValidCandles(cs: seq<Candle>) {
    forall c <- cs :: ValidCandle(c)
  }

  function Abs(x: real): (r: real)
    ensures r >= 0.0 && r >= x && r >= -x
  {
    if x < 0.0 then -x else x
  }

  function Max(x: real, y: real): real {
    if x >= y then x else y
  }

  function Min(x: real, y: real): real {
    if x <= y then x else y
  }

  function Body(c: Candle): real {
    Abs(c.close - c.open)
  }

  function Range(c: Candle): real {
    c.high - c.low
  }

  function BodyRatio(c: Candle): real {
    if Range(c) > 0.0 then Body(c) / Range(c) else 0.0
  }

  /** The candle seen in a mirror: every price `p` becomes `centre - p`. */
  function Mirror(c: Candle, centre: real): Candle {
    Candle(centre - c.open, centre - c.low, centre - c.high, centre - c.close)
  }

  function Mirrored(cs: seq<Candle>, centre: real): (ms: seq<Candle>)
    ensures |ms| == |cs|
    ensures forall i :: 0 <= i < |cs| ==> ms[i] == Mirror(cs[i], centre)
  {
    seq(|cs|, i requires 0 <= i < |cs| => Mirror(cs[i], centre))
  }

  function MirrorPrices(ps: seq<real>, centre: real): (ms: seq<real>)
    ensures |ms| == |ps|
    ensures forall i :: 0 <= i < |ps| ==> ms[i] == centre - ps[i]
  {
    seq(|ps|, i requires 0 <= i < |ps| => centre - ps[i])
  }

  /** Stop `x` protects a `d` position at least as much as `y` does. */
  predicate AtLeast(d: Direction, x: real, y: real) {
    if d.Buy? then x >= y else x <= y
  }
}
