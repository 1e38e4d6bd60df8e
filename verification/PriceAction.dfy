// The price-action engine: candle patterns, breakouts, pullbacks and inside
// bars, and the standalone signal, with the mirror symmetry between its
// bullish and bearish halves.
module PriceAction {
  import opened Market
  import opened Options
  import opened Rounding

  const PIN_BAR_WICK_RATIO := 2.0
  const PIN_BAR_BODY_MAX_RATIO := 0.30
  const STRONG_BODY_RATIO := 0.60
  const STRONG_BODY_ATR_MULT := 0.40
  const ENGULF_BODY_RATIO := 1.05
  const BREAKOUT_MIN_BODY := 0.20
  const BREAKOUT_BODY_RATIO := 0.50
  const FAKE_RETRACE_BARS := 3
  const STANDALONE_MIN_SCORE := 0.16

  /** A bullish flag and its bearish twin. */
  datatype Sides = Sides(bull: bool, bear: bool)

  function Swap(s: Sides): Sides {
    Sides(s.bear, s.bull)
  }

  datatype Zone = Zone(top: real, bottom: real)

  /** The levels and zones found elsewhere and handed to the detectors. */
  datatype Levels = Levels(support: seq<real>, resistance: seq<real>, demand: seq<Zone>, supply: seq<Zone>)

  predicate IsBull(c: Candle) {
    c.close > c.open
  }

  predicate IsBear(c: Candle) {
    c.close < c.open
  }

  function UpperWick(c: Candle): real {
    c.high - Max(c.open, c.close)
  }

  function LowerWick(c: Candle): real {
    Min(c.open, c.close) - c.low
  }

  // --------------------------------------------------------------- patterns

  datatype Patterns = Patterns(engulf: Sides, pin: Sides, strong: Sides)

  function DetectPatterns(c1: Candle, c0: Candle, atr: real): Patterns {
    var minEngulf := Max(BREAKOUT_MIN_BODY * 0.5, atr * 0.10);
    var engulfs := Body(c0) >= Max(Body(c1) * ENGULF_BODY_RATIO, minEngulf);
    var bullEngulf := IsBull(c0) && IsBear(c1) && c0.open <= c1.close && c0.close >= c1.open && engulfs;
    var bearEngulf := IsBear(c0) && IsBull(c1) && c0.open >= c1.close && c0.close <= c1.open && engulfs;
    var pinShape := Range(c0) >= atr * 0.25 && BodyRatio(c0) <= PIN_BAR_BODY_MAX_RATIO;
    var bullPin := pinShape && LowerWick(c0) >= Body(c0) * PIN_BAR_WICK_RATIO && UpperWick(c0) <= LowerWick(c0) * 0.4;
    var bearPin := pinShape && UpperWick(c0) >= Body(c0) * PIN_BAR_WICK_RATIO && LowerWick(c0) <= UpperWick(c0) * 0.4;
    var bigBody := BodyRatio(c0) >= STRONG_BODY_RATIO && Body(c0) >= atr * STRONG_BODY_ATR_MULT;
    var topOfRange, bottomOfRange := c0.low + Range(c0) * 0.80, c0.low + Range(c0) * 0.20;
    Patterns(Sides(bullEngulf, bearEngulf), Sides(bullPin, bearPin),
             Sides(IsBull(c0) && bigBody && c0.close >= topOfRange, IsBear(c0) && bigBody && c0.close <= bottomOfRange))
  }

  // ------------------------------------------ what the pattern flags mean

  /** `c0` opens at or beyond one end of the body of `c1` and closes at or beyond the other, and is big enough. */
  predicate Engulfs(c1: Candle, c0: Candle, atr: real) {
    Abs(c0.close - c0.open) >= Max(1.05 * Abs(c1.close - c1.open), Max(0.10, 0.10 * atr))
  }

  /** A bullish engulfing rises through the whole body of a falling candle, a bearish one falls through a rising one. */
  lemma EngulfingMeans(c1: Candle, c0: Candle, atr: real)
    ensures var p := DetectPatterns(c1, c0, atr);
      && (p.engulf.bull <==> c0.open <= c1.close < c1.open <= c0.close && Engulfs(c1, c0, atr))
      && (p.engulf.bear <==> c0.close <= c1.open < c1.close <= c0.open && Engulfs(c1, c0, atr))
  {
    assert Engulfs(c1, c0, atr) <==> Body(c0) >= Max(Body(c1) * ENGULF_BODY_RATIO, Max(BREAKOUT_MIN_BODY * 0.5, atr * 0.10));
  }

  /** A strong candle closes in its own direction in the outer fifth of its range. */
  lemma StrongMeans(c1: Candle, c0: Candle, atr: real)
    ensures var p, body, range := DetectPatterns(c1, c0, atr), Abs(c0.close - c0.open), c0.high - c0.low;
      var big := range > 0.0 && body >= 0.6 * range && body >= 0.4 * atr;
      && (p.strong.bull <==> big && c0.close > c0.open && c0.close - c0.low >= 0.8 * range)
      && (p.strong.bear <==> big && c0.close < c0.open && c0.close - c0.low <= 0.2 * range)
  {
    if Range(c0) > 0.0 {
      RatioIff(c0, STRONG_BODY_RATIO);
    }
  }

  lemma RatioIff(c: Candle, ratio: real)
    requires Range(c) > 0.0
    ensures BodyRatio(c) >= ratio <==> Body(c) >= ratio * Range(c)
    ensures BodyRatio(c) <= ratio <==> Body(c) <= ratio * Range(c)
  {
    var q := Body(c) / Range(c);
    assert q * Range(c) == Body(c);
    assert (q - ratio) * Range(c) == Body(c) - ratio * Range(c);
    if q > ratio { assert (q - ratio) * Range(c) > 0.0; } else if q < ratio { assert (ratio - q) * Range(c) > 0.0; }
  }

  /**
   * A bullish pin has a lower wick of twice its body and two and a half times its
   * upper wick, so its whole body lies in the upper half of the range; a bearish
   * pin lies in the lower half.
   */
  lemma PinMeans(c1: Candle, c0: Candle, atr: real)
    requires ValidCandle(c0) && atr > 0.0
    ensures var p := DetectPatterns(c1, c0, atr);
      var lower, upper, body := Min(c0.open, c0.close) - c0.low, c0.high - Max(c0.open, c0.close), Abs(c0.close - c0.open);
      var shape := c0.high - c0.low >= 0.25 * atr && body <= 0.3 * (c0.high - c0.low);
      && (p.pin.bull <==> shape && lower >= 2.0 * body && upper <= 0.4 * lower)
      && (p.pin.bear <==> shape && upper >= 2.0 * body && lower <= 0.4 * upper)
      && (p.pin.bull ==> Min(c0.open, c0.close) > (c0.high + c0.low) / 2.0)
      && (p.pin.bear ==> Max(c0.open, c0.close) < (c0.high + c0.low) / 2.0)
  {
    if Range(c0) > 0.0 {
      RatioIff(c0, PIN_BAR_BODY_MAX_RATIO);
    }
  }

  // ---------------------------------------------------- mirrored patterns

  lemma MirrorShape(c: Candle, centre: real)
    ensures Body(Mirror(c, centre)) == Body(c)
    ensures Range(Mirror(c, centre)) == Range(c)
    ensures BodyRatio(Mirror(c, centre)) == BodyRatio(c)
    ensures UpperWick(Mirror(c, centre)) == LowerWick(c)
    ensures LowerWick(Mirror(c, centre)) == UpperWick(c)
    ensures IsBull(Mirror(c, centre)) == IsBear(c)
    ensures IsBear(Mirror(c, centre)) == IsBull(c)
  {
  }

  /** In a mirrored market every bullish pattern is the bearish one and conversely. */
  lemma MirrorSwapsPatterns(c1: Candle, c0: Candle, atr: real, centre: real)
    ensures DetectPatterns(Mirror(c1, centre), Mirror(c0, centre), atr) == MirrorPatterns(DetectPatterns(c1, c0, atr))
  {
    MirrorShape(c1, centre);
    MirrorShape(c0, centre);
  }

  function MirrorPatterns(p: Patterns): Patterns {
    Patterns(Swap(p.engulf), Swap(p.pin), Swap(p.strong))
  }

  // ------------------------------------------------------------ inside bars

  datatype Inside = Inside(detected: bool, depth: nat, sides: Sides, level: Option<real>, strength: real)

  const NO_INSIDE := Inside(false, 0, Sides(false, false), None, 0.0)

  predicate IsInside(inside: Candle, mother: Candle) {
    && inside.high <= mother.high && inside.low >= mother.low
    && (inside.high < mother.high || inside.low > mother.low)
    && Range(inside) > 0.0 && Range(mother) > 0.0
  }

  /** How many consecutive inside bars end at `i`. */
  function Depth(candles: seq<Candle>, i: nat): (d: nat)
    requires i < |candles|
    ensures d <= i
  {
    if i >= 1 && IsInside(candles[i], candles[i - 1]) then 1 + Depth(candles, i - 1) else 0
  }

  predicate BreaksOut(c: Candle, atr: real) {
    Body(c) >= Max(BREAKOUT_MIN_BODY, atr * 0.25) && BodyRatio(c) >= BREAKOUT_BODY_RATIO
  }

  function InsideBreakout(candles: seq<Candle>, atr: real): Inside {
    var n := |candles|;
    if n < 3 || atr <= 0.0 || Depth(candles, n - 2) == 0 then NO_INSIDE
    else
      var depth := Depth(candles, n - 2);
      BreakoutFrom(candles[n - 2 - depth], candles[n - 1], depth, atr)
  }

  /** What the last candle does with the outer mother of a nested structure. */
  function BreakoutFrom(mother: Candle, c: Candle, depth: nat, atr: real): Inside
    requires atr > 0.0
  {
    var bull := IsBull(c) && c.close > mother.high && BreaksOut(c, atr);
    var bear := IsBear(c) && c.close < mother.low && BreaksOut(c, atr);
    Inside(true, depth, Sides(bull, bear),
           if bull then Some(mother.high) else if bear then Some(mother.low) else None,
           if bull || bear then Round3(Body(c) / atr) else 0.0)
  }

  method DetectInsideBarBreakout(candles: seq<Candle>, atr: real) returns (r: Inside)
    ensures r == InsideBreakout(candles, atr)
  {
    var n := |candles|;
    if n < 3 || atr <= 0.0 {
      return NO_INSIDE;
    }
    var breakout := candles[n - 1];
    var insideIndex, motherIndex, depth := n - 2, n - 3, 0;
    var outer: Option<Candle> := None;
    while insideIndex >= 1 && motherIndex >= 0 && IsInside(candles[insideIndex], candles[motherIndex])
      invariant 0 <= insideIndex == motherIndex + 1 && insideIndex + depth == n - 2
      invariant depth + Depth(candles, insideIndex) == Depth(candles, n - 2)
      invariant outer == if depth == 0 then None else Some(candles[insideIndex])
      decreases insideIndex
    {
      depth := depth + 1;
      outer := Some(candles[motherIndex]);
      insideIndex, motherIndex := insideIndex - 1, motherIndex - 1;
    }
    if outer.None? {
      return NO_INSIDE;
    }
    var body := Body(breakout);
    var quality := BodyRatio(breakout) >= BREAKOUT_BODY_RATIO;
    var minimumBody := Max(BREAKOUT_MIN_BODY, atr * 0.25);
    var bull := IsBull(breakout) && breakout.close > outer.value.high && body >= minimumBody && quality;
    var bear := IsBear(breakout) && breakout.close < outer.value.low && body >= minimumBody && quality;
    var level := if bull then Some(outer.value.high) else if bear then Some(outer.value.low) else None;
    r := Inside(true, depth, Sides(bull, bear), level, if bull || bear then Round3(body / atr) else 0.0);
  }

  lemma {:induction false} OuterMotherContains(candles: seq<Candle>, i: nat, k: nat)
    requires i < |candles| && i - Depth(candles, i) <= k <= i
    ensures candles[k].high <= candles[i - Depth(candles, i)].high
    ensures candles[k].low >= candles[i - Depth(candles, i)].low
  {
    if k < i {
      OuterMotherContains(candles, i - 1, k);
    } else if Depth(candles, i) > 0 {
      OuterMotherContains(candles, i - 1, i - 1);
    }
  }

  /** An inside-bar breakout closes beyond every candle of the nested structure, not only the last. */
  lemma InsideBreakoutClearsAll(candles: seq<Candle>, atr: real, k: nat)
    requires var r := InsideBreakout(candles, atr);
      r.detected && |candles| - 2 - r.depth <= k <= |candles| - 2
    ensures InsideBreakout(candles, atr).sides.bull ==> candles[|candles| - 1].close > candles[k].high
    ensures InsideBreakout(candles, atr).sides.bear ==> candles[|candles| - 1].close < candles[k].low
  {
    OuterMotherContains(candles, |candles| - 2, k);
  }

  lemma {:induction false} MirrorKeepsDepth(candles: seq<Candle>, i: nat, centre: real)
    requires i < |candles|
    ensures Depth(Mirrored(candles, centre), i) == Depth(candles, i)
  {
    if i >= 1 {
      MirrorShape(candles[i], centre);
      MirrorShape(candles[i - 1], centre);
      MirrorKeepsDepth(candles, i - 1, centre);
    }
  }

  lemma MirrorSwapsInside(candles: seq<Candle>, atr: real, centre: real)
    ensures InsideBreakout(Mirrored(candles, centre), atr) == MirrorInside(InsideBreakout(candles, atr), centre)
  {
    var n := |candles|;
    if n >= 3 && atr > 0.0 {
      MirrorKeepsDepth(candles, n - 2, centre);
      var depth := Depth(candles, n - 2);
      MirrorSwapsBreakoutFrom(candles[n - 2 - depth], candles[n - 1], depth, atr, centre);
    }
  }

  /** The reflected result: swapped sides, the reflected level, the same depth and strength. */
  function MirrorInside(r: Inside, centre: real): Inside {
    r.(sides := Swap(r.sides), level := if r.level.Some? then Some(centre - r.level.value) else None)
  }

  lemma MirrorSwapsBreakoutFrom(mother: Candle, c: Candle, depth: nat, atr: real, centre: real)
    requires atr > 0.0
    ensures BreakoutFrom(Mirror(mother, centre), Mirror(c, centre), depth, atr)
         == MirrorInside(BreakoutFrom(mother, c, depth, atr), centre)
  {
    MirrorShape(c, centre);
    assert BreaksOut(Mirror(c, centre), atr) == BreaksOut(c, atr);
  }

  // ------------------------------------------------ breakouts and pullbacks

  datatype Breakouts = Breakouts(valid: Sides, fake: Sides, pullback: Sides, inside: Inside)

  /** The host language's slice `s[lo:hi]`, where negative bounds count from the end. */
  function Slice(s: seq<Candle>, lo: int, hi: int): seq<Candle> {
    var from, to := Bound(lo, |s|), Bound(hi, |s|);
    if from < to then s[from..to] else []
  }

  function Bound(i: int, n: nat): (b: nat)
    ensures b <= n
  {
    if i >= n then n else if i >= 0 then i else if i + n >= 0 then i + n else 0
  }

  function Recent(candles: seq<Candle>): seq<Candle> {
    Slice(candles, |candles| - FAKE_RETRACE_BARS - 1, |candles| - 1)
  }

  function Threshold(atr: real): real {
    Max(BREAKOUT_MIN_BODY, atr * 0.15)
  }

  predicate Forceful(c: Candle, atr: real) {
    Body(c) >= Threshold(atr) && BodyRatio(c) >= BREAKOUT_BODY_RATIO
  }

  /** A close through a resistance from below on a forceful bullish candle. */
  predicate BreaksUp(prev: Candle, curr: Candle, atr: real, level: real) {
    prev.close <= level < curr.close && Forceful(curr, atr) && IsBull(curr)
  }

  predicate BreaksDown(prev: Candle, curr: Candle, atr: real, level: real) {
    prev.close >= level > curr.close && Forceful(curr, atr) && IsBear(curr)
  }

  /** A recent close above a resistance that the current close has given back. */
  predicate FailsUp(recent: seq<Candle>, curr: Candle, level: real) {
    exists rc <- recent :: rc.close > level && curr.close < level
  }

  predicate FailsDown(recent: seq<Candle>, curr: Candle, level: real) {
    exists rc <- recent :: rc.close < level && curr.close > level
  }

  predicate AnyBreakUp(levels: seq<real>, prev: Candle, curr: Candle, atr: real) {
    exists level <- levels :: BreaksUp(prev, curr, atr, level)
  }

  predicate AnyBreakDown(levels: seq<real>, prev: Candle, curr: Candle, atr: real) {
    exists level <- levels :: BreaksDown(prev, curr, atr, level)
  }

  predicate AnyFailUp(levels: seq<real>, recent: seq<Candle>, curr: Candle) {
    exists level <- levels :: FailsUp(recent, curr, level)
  }

  predicate AnyFailDown(levels: seq<real>, recent: seq<Candle>, curr: Candle) {
    exists level <- levels :: FailsDown(recent, curr, level)
  }

  predicate Touches(c: Candle, bottom: real, top: real, zone: real) {
    c.low <= top + zone && c.high >= bottom - zone
  }

  function PullZone(tolerance: real, atr: real): real {
    Max(tolerance, Min(1.5, atr * 0.25))
  }

  /** `c` touched a support or demand zone that `price` is above again. */
  predicate ReclaimsSupport(lv: Levels, c: Candle, price: real, zone: real) {
    || (exists level <- lv.support :: Touches(c, level, level, zone) && price > level)
    || (exists z <- lv.demand :: Touches(c, z.bottom, z.top, zone) && price > z.top)
  }

  predicate RejectsResistance(lv: Levels, c: Candle, price: real, zone: real) {
    || (exists level <- lv.resistance :: Touches(c, level, level, zone) && price < level)
    || (exists z <- lv.supply :: Touches(c, z.bottom, z.top, zone) && price < z.bottom)
  }

  function TrendMove(candles: seq<Candle>): real
    requires |candles| >= 2
  {
    var n := |candles|;
    var look := if n - 1 < 10 then n - 1 else 10;
    candles[n - 1].close - candles[n - 1 - look].close
  }

  predicate BullPullback(candles: seq<Candle>, lv: Levels, tolerance: real, atr: real)
    requires |candles| >= 2
  {
    var n, zone := |candles|, PullZone(tolerance, atr);
    var prev, curr := candles[n - 2], candles[n - 1];
    && TrendMove(candles) >= Max(tolerance, atr * 2.0)
    && IsBull(curr) && (curr.close > prev.high || BodyRatio(curr) >= 0.45)
    && (ReclaimsSupport(lv, prev, curr.close, zone) || ReclaimsSupport(lv, curr, curr.close, zone))
  }

  predicate BearPullback(candles: seq<Candle>, lv: Levels, tolerance: real, atr: real)
    requires |candles| >= 2
  {
    var n, zone := |candles|, PullZone(tolerance, atr);
    var prev, curr := candles[n - 2], candles[n - 1];
    && TrendMove(candles) <= -Max(tolerance, atr * 2.0)
    && IsBear(curr) && (curr.close < prev.low || BodyRatio(curr) >= 0.45)
    && (RejectsResistance(lv, prev, curr.close, zone) || RejectsResistance(lv, curr, curr.close, zone))
  }

  function BreakoutsAndPullbacks(candles: seq<Candle>, lv: Levels, tolerance: real, atr: real): Breakouts
    requires |candles| >= 2
  {
    var n := |candles|;
    var prev, curr, recent := candles[n - 2], candles[n - 1], Recent(candles);
    Breakouts(
      ValidSides(lv, prev, curr, atr),
      FakeSides(lv, recent, curr),
      Pullbacks(candles, lv, tolerance, atr),
      InsideBreakout(candles, atr))
  }

  function ValidSides(lv: Levels, prev: Candle, curr: Candle, atr: real): Sides {
    Sides(AnyBreakUp(lv.resistance, prev, curr, atr), AnyBreakDown(lv.support, prev, curr, atr))
  }

  function FakeSides(lv: Levels, recent: seq<Candle>, curr: Candle): Sides {
    Sides(AnyFailUp(lv.resistance, recent, curr), AnyFailDown(lv.support, recent, curr))
  }

  function Pullbacks(candles: seq<Candle>, lv: Levels, tolerance: real, atr: real): Sides
    requires |candles| >= 2
  {
    Sides(BullPullback(candles, lv, tolerance, atr), BearPullback(candles, lv, tolerance, atr))
  }

  method ScanResistances(levels: seq<real>, recent: seq<Candle>, prev: Candle, curr: Candle, atr: real)
    returns (valid: bool, fake: bool)
    ensures valid <==> AnyBreakUp(levels, prev, curr, atr)
    ensures fake <==> AnyFailUp(levels, recent, curr)
  {
    valid, fake := false, false;
    for i := 0 to |levels|
      invariant valid <==> exists k :: 0 <= k < i && BreaksUp(prev, curr, atr, levels[k])
      invariant fake <==> exists k :: 0 <= k < i && FailsUp(recent, curr, levels[k])
    {
      var level := levels[i];
      if prev.close <= level < curr.close && Forceful(curr, atr) && IsBull(curr) {
        valid := true;
      }
      ghost var was := fake;
      for j := 0 to |recent|
        invariant fake <==> was || exists k :: 0 <= k < j && recent[k].close > level && curr.close < level
      {
        if recent[j].close > level && curr.close < level {
          fake := true;
        }
      }
      assert fake <==> was || FailsUp(recent, curr, level);
    }
  }

  method ScanSupports(levels: seq<real>, recent: seq<Candle>, prev: Candle, curr: Candle, atr: real)
    returns (valid: bool, fake: bool)
    ensures valid <==> AnyBreakDown(levels, prev, curr, atr)
    ensures fake <==> AnyFailDown(levels, recent, curr)
  {
    valid, fake := false, false;
    for i := 0 to |levels|
      invariant valid <==> exists k :: 0 <= k < i && BreaksDown(prev, curr, atr, levels[k])
      invariant fake <==> exists k :: 0 <= k < i && FailsDown(recent, curr, levels[k])
    {
      var level := levels[i];
      if prev.close >= level > curr.close && Forceful(curr, atr) && IsBear(curr) {
        valid := true;
      }
      ghost var was := fake;
      for j := 0 to |recent|
        invariant fake <==> was || exists k :: 0 <= k < j && recent[k].close < level && curr.close > level
      {
        if recent[j].close < level && curr.close > level {
          fake := true;
        }
      }
      assert fake <==> was || FailsDown(recent, curr, level);
    }
  }

  method DetectBreakoutPullback(candles: seq<Candle>, lv: Levels, tolerance: real, atr: real) returns (r: Breakouts)
    requires |candles| >= 2
    ensures r == BreakoutsAndPullbacks(candles, lv, tolerance, atr)
  {
    var n := |candles|;
    var curr, prev, recent := candles[n - 1], candles[n - 2], Recent(candles);
    var vbull, fbull := ScanResistances(lv.resistance, recent, prev, curr, atr);
    var vbear, fbear := ScanSupports(lv.support, recent, prev, curr, atr);
    var inside := DetectInsideBarBreakout(candles, atr);
    r := Breakouts(Sides(vbull, vbear), Sides(fbull, fbear), Pullbacks(candles, lv, tolerance, atr), inside);
  }

  // ---------------------------------------- what the breakout flags mean

  /** A rising, or falling, candle with a large body that fills at least half its range. */
  predicate Drives(c: Candle, d: Direction, atr: real) {
    var gain := if d.Buy? then c.close - c.open else c.open - c.close;
    gain > 0.0 && gain >= 0.2 && gain >= 0.15 * atr && gain >= 0.5 * (c.high - c.low) && c.high > c.low
  }

  lemma DrivesIff(c: Candle, atr: real)
    ensures Drives(c, Buy, atr) <==> Forceful(c, atr) && IsBull(c)
    ensures Drives(c, Sell, atr) <==> Forceful(c, atr) && IsBear(c)
  {
    if Range(c) > 0.0 {
      RatioIff(c, BREAKOUT_BODY_RATIO);
    }
  }

  /** A fresh breakout carries a resistance from at or above the last close to below this one; a breakdown a support. */
  lemma BreakoutMeans(candles: seq<Candle>, lv: Levels, tolerance: real, atr: real)
    requires |candles| >= 2
    ensures var prev, curr := candles[|candles| - 2], candles[|candles| - 1];
      var valid := BreakoutsAndPullbacks(candles, lv, tolerance, atr).valid;
      && (valid.bull <==> Drives(curr, Buy, atr) && exists level <- lv.resistance :: prev.close <= level < curr.close)
      && (valid.bear <==> Drives(curr, Sell, atr) && exists level <- lv.support :: prev.close >= level > curr.close)
  {
    var prev, curr := candles[|candles| - 2], candles[|candles| - 1];
    DrivesIff(curr, atr);
    if Drives(curr, Buy, atr) {
      assert forall level <- lv.resistance :: BreaksUp(prev, curr, atr, level) <==> prev.close <= level < curr.close;
    }
    if Drives(curr, Sell, atr) {
      assert forall level <- lv.support :: BreaksDown(prev, curr, atr, level) <==> prev.close >= level > curr.close;
    }
  }

  /**
   * The candles a failed breakout may have closed on: the three before the last.  Of two
   * candles it is the first, and of exactly three the slice of the host language is empty.
   */
  predicate Recently(n: nat, k: int) {
    if n >= 4 then n - 4 <= k < n - 1 else n == 2 && k == 0
  }

  /** One of those candles closed beyond the level in `d`, and the last gives it back. */
  predicate GivesBack(candles: seq<Candle>, level: real, d: Direction)
    requires |candles| >= 2
  {
    var n := |candles|;
    exists k | 0 <= k < n && Recently(n, k) ::
      if d.Buy? then candles[k].close > level > candles[n - 1].close else candles[k].close < level < candles[n - 1].close
  }

  /** A failed breakout is a resistance that was closed above and is given back; a failed breakdown a support. */
  lemma FakeoutMeans(candles: seq<Candle>, lv: Levels, tolerance: real, atr: real)
    requires |candles| >= 2
    ensures var fake := BreakoutsAndPullbacks(candles, lv, tolerance, atr).fake;
      && (fake.bull <==> exists level <- lv.resistance :: GivesBack(candles, level, Buy))
      && (fake.bear <==> exists level <- lv.support :: GivesBack(candles, level, Sell))
  {
    forall level: real
      ensures FailsUp(Recent(candles), candles[|candles| - 1], level) <==> GivesBack(candles, level, Buy)
      ensures FailsDown(Recent(candles), candles[|candles| - 1], level) <==> GivesBack(candles, level, Sell) {
      RecentFails(candles, level);
    }
  }

  lemma RecentFails(candles: seq<Candle>, level: real)
    requires |candles| >= 2
    ensures var n := |candles|;
      && (FailsUp(Recent(candles), candles[n - 1], level) <==> GivesBack(candles, level, Buy))
      && (FailsDown(Recent(candles), candles[n - 1], level) <==> GivesBack(candles, level, Sell))
  {
    var n := |candles|;
    RecentIs(candles);
    if n >= 4 {
      var recent := candles[n - 4..n - 1];
      assert forall k :: n - 4 <= k < n - 1 ==> candles[k] == recent[k - (n - 4)] && candles[k] in recent;
    }
  }

  lemma RecentIs(candles: seq<Candle>)
    requires |candles| >= 2
    ensures var n := |candles|;
      Recent(candles) == if n >= 4 then candles[n - 4..n - 1] else if n == 2 then [candles[0]] else []
  {
  }

  /** A level, or a zone, that the last two candles came within `reach` of and that lies on the far side of the close. */
  predicate Retested(prev: Candle, curr: Candle, bottom: real, top: real, reach: real) {
    || (prev.low - reach <= top && bottom <= prev.high + reach)
    || (curr.low - reach <= top && bottom <= curr.high + reach)
  }

  /**
   * A bullish pullback is a rise over the last ten candles whose last candle rises off a
   * support or out of a demand zone that it or the candle before came back to; a bearish
   * one the opposite.
   */
  lemma PullbackMeans(candles: seq<Candle>, lv: Levels, tolerance: real, atr: real)
    requires |candles| >= 2
    ensures var n, p := |candles|, BreakoutsAndPullbacks(candles, lv, tolerance, atr).pullback;
      var prev, curr, reach := candles[n - 2], candles[n - 1], Max(tolerance, Min(1.5, atr * 0.25));
      var climb := curr.close - candles[if n > 10 then n - 11 else 0].close;
      && (p.bull <==>
            && climb >= tolerance && climb >= 2.0 * atr && curr.close > curr.open
            && (curr.close > prev.high || BodyRatio(curr) >= 0.45)
            && (|| (exists x <- lv.support :: Retested(prev, curr, x, x, reach) && x < curr.close)
                || (exists z <- lv.demand :: Retested(prev, curr, z.bottom, z.top, reach) && z.top < curr.close)))
      && (p.bear <==>
            && -climb >= tolerance && -climb >= 2.0 * atr && curr.close < curr.open
            && (curr.close < prev.low || BodyRatio(curr) >= 0.45)
            && (|| (exists x <- lv.resistance :: Retested(prev, curr, x, x, reach) && x > curr.close)
                || (exists z <- lv.supply :: Retested(prev, curr, z.bottom, z.top, reach) && z.bottom > curr.close)))
  {
    var n := |candles|;
    var prev, curr, reach := candles[n - 2], candles[n - 1], PullZone(tolerance, atr);
    ReclaimMeans(lv, prev, curr, curr.close, reach);
    assert TrendMove(candles) == curr.close - candles[if n > 10 then n - 11 else 0].close;
  }

  lemma ReclaimMeans(lv: Levels, prev: Candle, curr: Candle, price: real, reach: real)
    ensures (ReclaimsSupport(lv, prev, price, reach) || ReclaimsSupport(lv, curr, price, reach)) <==>
            || (exists x <- lv.support :: Retested(prev, curr, x, x, reach) && x < price)
            || (exists z <- lv.demand :: Retested(prev, curr, z.bottom, z.top, reach) && z.top < price)
    ensures (RejectsResistance(lv, prev, price, reach) || RejectsResistance(lv, curr, price, reach)) <==>
            || (exists x <- lv.resistance :: Retested(prev, curr, x, x, reach) && x > price)
            || (exists z <- lv.supply :: Retested(prev, curr, z.bottom, z.top, reach) && z.bottom > price)
  {
    assert forall bottom, top ::
      Retested(prev, curr, bottom, top, reach) <==> (Touches(prev, bottom, top, reach) || Touches(curr, bottom, top, reach));
  }

  /** The candle lies within the one before it and is smaller; neither is a single price. */
  predicate NestedAt(candles: seq<Candle>, k: nat)
    requires 0 < k < |candles|
  {
    var mother, inside := candles[k - 1], candles[k];
    mother.low <= inside.low && inside.high <= mother.high && 0.0 < inside.high - inside.low < mother.high - mother.low
  }

  /** `depth` is the number of candles nested one in the next that end at `i`. */
  predicate IsDepth(candles: seq<Candle>, i: nat, depth: nat)
    requires i < |candles|
  {
    && depth <= i
    && (forall k :: i - depth < k <= i ==> NestedAt(candles, k))
    && (depth < i ==> !NestedAt(candles, i - depth))
  }

  lemma {:induction false} DepthIs(candles: seq<Candle>, i: nat)
    requires i < |candles|
    ensures IsDepth(candles, i, Depth(candles, i))
  {
    if i >= 1 && IsInside(candles[i], candles[i - 1]) {
      DepthIs(candles, i - 1);
    }
  }

  /**
   * An inside structure is at least one nested candle before the last; it breaks out when
   * the last candle drives through the outermost mother with a body of a quarter ATR, and
   * the broken price and the body in ATRs are reported.
   */
  lemma InsideBreakoutIff(candles: seq<Candle>, atr: real)
    ensures var n, r := |candles|, InsideBreakout(candles, atr);
      && (r.detected <==> n >= 3 && atr > 0.0 && NestedAt(candles, n - 2))
      && (r.detected ==>
            var c := candles[n - 1];
            && IsDepth(candles, n - 2, r.depth)
            && var mother := candles[n - 2 - r.depth];
            && (r.sides.bull <==> c.close > mother.high && Drives(c, Buy, atr) && c.close - c.open >= 0.25 * atr)
            && (r.sides.bear <==> c.close < mother.low && Drives(c, Sell, atr) && c.open - c.close >= 0.25 * atr)
            && r.level == (if r.sides.bull then Some(mother.high) else if r.sides.bear then Some(mother.low) else None)
            && r.strength == (if r.sides.bull || r.sides.bear then Round3(Abs(c.close - c.open) / atr) else 0.0))
      && (!r.detected ==> r == Inside(false, 0, Sides(false, false), None, 0.0))
  {
    var n := |candles|;
    if n >= 3 && atr > 0.0 {
      DepthIs(candles, n - 2);
      if Depth(candles, n - 2) > 0 {
        BreakoutFromIff(candles[n - 2 - Depth(candles, n - 2)], candles[n - 1], Depth(candles, n - 2), atr);
      }
    }
  }

  lemma BreakoutFromIff(mother: Candle, c: Candle, depth: nat, atr: real)
    requires atr > 0.0
    ensures var sides := BreakoutFrom(mother, c, depth, atr).sides;
      && (sides.bull <==> c.close > mother.high && Drives(c, Buy, atr) && c.close - c.open >= 0.25 * atr)
      && (sides.bear <==> c.close < mother.low && Drives(c, Sell, atr) && c.open - c.close >= 0.25 * atr)
  {
    if Range(c) > 0.0 {
      RatioIff(c, BREAKOUT_BODY_RATIO);
    }
  }

  /** An inside-bar breakout upward is a rising candle, downward a falling one. */
  lemma InsideMeans(candles: seq<Candle>, atr: real)
    requires |candles| >= 2
    ensures var sides, curr := InsideBreakout(candles, atr).sides, candles[|candles| - 1];
      (sides.bull ==> curr.close > curr.open) && (sides.bear ==> curr.close < curr.open)
  {
  }

  // ----------------------------------------------------- mirrored breakouts

  function MirrorZone(z: Zone, centre: real): Zone {
    Zone(centre - z.bottom, centre - z.top)
  }

  function MirrorZones(zs: seq<Zone>, centre: real): (ms: seq<Zone>)
    ensures |ms| == |zs|
    ensures forall i :: 0 <= i < |zs| ==> ms[i] == MirrorZone(zs[i], centre)
  {
    seq(|zs|, i requires 0 <= i < |zs| => MirrorZone(zs[i], centre))
  }

  /** Reflected prices, with supports and resistances, demand and supply trading places. */
  function MirrorLevels(lv: Levels, centre: real): Levels {
    Levels(MirrorPrices(lv.resistance, centre), MirrorPrices(lv.support, centre),
           MirrorZones(lv.supply, centre), MirrorZones(lv.demand, centre))
  }

  lemma ExistsMirrored<T, U>(xs: seq<T>, ys: seq<U>, p: T -> bool, q: U -> bool)
    requires |xs| == |ys|
    requires forall i :: 0 <= i < |xs| ==> p(xs[i]) == q(ys[i])
    ensures (exists x <- xs :: p(x)) <==> (exists y <- ys :: q(y))
  {
    forall x <- xs | p(x) ensures exists y <- ys :: q(y) {
      var i :| 0 <= i < |xs| && xs[i] == x;
      assert q(ys[i]) && ys[i] in ys;
    }
    forall y <- ys | q(y) ensures exists x <- xs :: p(x) {
      var i :| 0 <= i < |ys| && ys[i] == y;
      assert p(xs[i]) && xs[i] in xs;
    }
  }

  lemma MirrorSwapsValid(prev: Candle, curr: Candle, levels: seq<real>, atr: real, centre: real)
    ensures var p, c, ms := Mirror(prev, centre), Mirror(curr, centre), MirrorPrices(levels, centre);
      && AnyBreakDown(ms, p, c, atr) == AnyBreakUp(levels, prev, curr, atr)
      && AnyBreakUp(ms, p, c, atr) == AnyBreakDown(levels, prev, curr, atr)
  {
    var p, c, ms := Mirror(prev, centre), Mirror(curr, centre), MirrorPrices(levels, centre);
    MirrorShape(curr, centre);
    ExistsMirrored(levels, ms, x => BreaksUp(prev, curr, atr, x), x => BreaksDown(p, c, atr, x));
    ExistsMirrored(levels, ms, x => BreaksDown(prev, curr, atr, x), x => BreaksUp(p, c, atr, x));
  }

  lemma MirrorSwapsFailure(recent: seq<Candle>, curr: Candle, level: real, centre: real)
    ensures var ms, c := Mirrored(recent, centre), Mirror(curr, centre);
      && FailsDown(ms, c, centre - level) == FailsUp(recent, curr, level)
      && FailsUp(ms, c, centre - level) == FailsDown(recent, curr, level)
  {
    var ms, c := Mirrored(recent, centre), Mirror(curr, centre);
    ExistsMirrored(recent, ms, (rc: Candle) => rc.close > level && curr.close < level,
                   (rc: Candle) => rc.close < centre - level && c.close > centre - level);
    ExistsMirrored(recent, ms, (rc: Candle) => rc.close < level && curr.close > level,
                   (rc: Candle) => rc.close > centre - level && c.close < centre - level);
  }

  lemma MirrorSwapsFake(recent: seq<Candle>, curr: Candle, levels: seq<real>, centre: real)
    ensures var rs, c, ms := Mirrored(recent, centre), Mirror(curr, centre), MirrorPrices(levels, centre);
      && AnyFailDown(ms, rs, c) == AnyFailUp(levels, recent, curr)
      && AnyFailUp(ms, rs, c) == AnyFailDown(levels, recent, curr)
  {
    var rs, c, ms := Mirrored(recent, centre), Mirror(curr, centre), MirrorPrices(levels, centre);
    forall i | 0 <= i < |levels|
      ensures FailsDown(rs, c, ms[i]) == FailsUp(recent, curr, levels[i])
      ensures FailsUp(rs, c, ms[i]) == FailsDown(recent, curr, levels[i]) {
      MirrorSwapsFailure(recent, curr, levels[i], centre);
    }
    ExistsMirrored(levels, ms, x => FailsUp(recent, curr, x), x => FailsDown(rs, c, x));
    ExistsMirrored(levels, ms, x => FailsDown(recent, curr, x), x => FailsUp(rs, c, x));
  }

  lemma MirrorTurnsReclaim(lv: Levels, c: Candle, price: real, zone: real, centre: real)
    ensures RejectsResistance(MirrorLevels(lv, centre), Mirror(c, centre), centre - price, zone)
         == ReclaimsSupport(lv, c, price, zone)
  {
    var m, mc, mp := MirrorLevels(lv, centre), Mirror(c, centre), centre - price;
    ExistsMirrored(lv.support, m.resistance, x => Touches(c, x, x, zone) && price > x,
                   x => Touches(mc, x, x, zone) && mp < x);
    ExistsMirrored(lv.demand, m.supply, (z: Zone) => Touches(c, z.bottom, z.top, zone) && price > z.top,
                   (z: Zone) => Touches(mc, z.bottom, z.top, zone) && mp < z.bottom);
  }

  lemma MirrorTurnsRejection(lv: Levels, c: Candle, price: real, zone: real, centre: real)
    ensures ReclaimsSupport(MirrorLevels(lv, centre), Mirror(c, centre), centre - price, zone)
         == RejectsResistance(lv, c, price, zone)
  {
    var m, mc, mp := MirrorLevels(lv, centre), Mirror(c, centre), centre - price;
    ExistsMirrored(lv.resistance, m.support, x => Touches(c, x, x, zone) && price < x,
                   x => Touches(mc, x, x, zone) && mp > x);
    ExistsMirrored(lv.supply, m.demand, (z: Zone) => Touches(c, z.bottom, z.top, zone) && price < z.bottom,
                   (z: Zone) => Touches(mc, z.bottom, z.top, zone) && mp > z.top);
  }

  lemma MirrorSwapsPullback(candles: seq<Candle>, lv: Levels, tolerance: real, atr: real, centre: real)
    requires |candles| >= 2
    ensures Pullbacks(Mirrored(candles, centre), MirrorLevels(lv, centre), tolerance, atr)
         == Swap(Pullbacks(candles, lv, tolerance, atr))
  {
    var n, zone := |candles|, PullZone(tolerance, atr);
    var prev, curr := candles[n - 2], candles[n - 1];
    MirrorShape(curr, centre);
    MirrorTurnsReclaim(lv, prev, curr.close, zone, centre);
    MirrorTurnsReclaim(lv, curr, curr.close, zone, centre);
    MirrorTurnsRejection(lv, prev, curr.close, zone, centre);
    MirrorTurnsRejection(lv, curr, curr.close, zone, centre);
  }

  /** Reflecting every price and swapping the levels swaps all bullish and bearish flags. */
  lemma MirrorSwapsBreakouts(candles: seq<Candle>, lv: Levels, tolerance: real, atr: real, centre: real)
    requires |candles| >= 2
    ensures BreakoutsAndPullbacks(Mirrored(candles, centre), MirrorLevels(lv, centre), tolerance, atr)
         == MirrorBreakouts(BreakoutsAndPullbacks(candles, lv, tolerance, atr), centre)
  {
    var n := |candles|;
    var prev, curr, recent := candles[n - 2], candles[n - 1], Recent(candles);
    MirrorSwapsValidSides(prev, curr, lv, atr, centre);
    RecentMirrored(candles, centre);
    MirrorSwapsFakeSides(recent, curr, lv, centre);
    MirrorSwapsPullback(candles, lv, tolerance, atr, centre);
    MirrorSwapsInside(candles, atr, centre);
  }

  lemma MirrorSwapsValidSides(prev: Candle, curr: Candle, lv: Levels, atr: real, centre: real)
    ensures ValidSides(MirrorLevels(lv, centre), Mirror(prev, centre), Mirror(curr, centre), atr)
         == Swap(ValidSides(lv, prev, curr, atr))
  {
    MirrorSwapsValid(prev, curr, lv.resistance, atr, centre);
    MirrorSwapsValid(prev, curr, lv.support, atr, centre);
  }

  lemma MirrorSwapsFakeSides(recent: seq<Candle>, curr: Candle, lv: Levels, centre: real)
    ensures FakeSides(MirrorLevels(lv, centre), Mirrored(recent, centre), Mirror(curr, centre))
         == Swap(FakeSides(lv, recent, curr))
  {
    MirrorSwapsFake(recent, curr, lv.resistance, centre);
    MirrorSwapsFake(recent, curr, lv.support, centre);
  }

  function MirrorBreakouts(b: Breakouts, centre: real): Breakouts {
    Breakouts(Swap(b.valid), Swap(b.fake), Swap(b.pullback), MirrorInside(b.inside, centre))
  }

  lemma RecentMirrored(candles: seq<Candle>, centre: real)
    ensures Recent(Mirrored(candles, centre)) == Mirrored(Recent(candles), centre)
  {
  }

  // ------------------------------------------------------------- the signal

  /** What speaks for one direction; `near`: the candle touches one of its levels or zones. */
  datatype Evidence = Evidence(engulf: bool, pin: bool, strong: bool, valid: bool, fake: bool,
                               pullback: bool, inside: bool, near: bool)

  function Points(b: bool, x: real): real {
    if b then x else 0.0
  }

  function Score(e: Evidence): real {
    Max(0.0, Gains(e) - Points(e.fake, 1.5))
  }

  function Gains(e: Evidence): real {
    Points(e.engulf, 1.5) + Points(e.pin, if e.near then 1.5 else 0.8) + Points(e.strong, 1.0)
    + Points(e.valid, 1.0) + Points(e.pullback, 0.8) + Points(e.inside, 1.2) + Points(e.near, 0.5)
  }

  lemma GainsArePositive(e: Evidence)
    ensures Gains(e) >= 0.0
  {
  }

  /** Evidence that is directional even below the score floor. */
  predicate Clear(e: Evidence) {
    e.engulf || e.valid || e.inside
  }

  predicate Trigger(e: Evidence) {
    Clear(e) || e.pullback || (e.pin && e.near) || (e.strong && e.near)
  }

  /** The dominant score as a share of the old maximum. */
  function Published(buy: real, sell: real): real {
    Round2(Max(buy, sell) / 6.5)
  }

  predicate Fires(mine: real, other: real, published: real, e: Evidence) {
    mine > other && Trigger(e) && mine >= 1.0 && (published >= STANDALONE_MIN_SCORE || Clear(e))
  }

  function Decide(buy: Evidence, sell: Evidence, b: real, s: real, published: real): Option<Direction> {
    if Fires(b, s, published, buy) then Some(Buy) else if Fires(s, b, published, sell) then Some(Sell) else None
  }

  function PaSignal(buy: Evidence, sell: Evidence): (Option<Direction>, real) {
    var b, s := Score(buy), Score(sell);
    (Decide(buy, sell, b, s, Published(b, s)), Min(1.0, Published(b, s)))
  }

  /** One direction's share of the accumulation. */
  method Accumulate(e: Evidence) returns (score: real)
    ensures score == Score(e)
  {
    score := 0.0;
    if e.engulf { score := score + 1.5; }
    if e.pin { score := score + if e.near then 1.5 else 0.8; }
    if e.strong { score := score + 1.0; }
    if e.valid { score := score + 1.0; }
    if e.pullback { score := score + 0.8; }
    if e.inside { score := score + 1.2; }
    if e.near { score := score + 0.5; }
    if e.fake { score := score - 1.5; }
    score := Max(0.0, score);
  }

  method ComputePaSignal(buy: Evidence, sell: Evidence) returns (signal: Option<Direction>, score: real)
    ensures (signal, score) == PaSignal(buy, sell)
    ensures signal == Some(Buy) <==> Outweighs(buy, sell)
    ensures signal == Some(Sell) <==> Outweighs(sell, buy)
    ensures score == Min(1.0, Published(Score(buy), Score(sell)))
  {
    FloorNeverDecides(buy, sell);
    var b := Accumulate(buy);
    var s := Accumulate(sell);
    signal := PickSide(buy, sell, b, s, Published(b, s));
    score := Min(1.0, Published(b, s));
  }

  method PickSide(buy: Evidence, sell: Evidence, b: real, s: real, published: real) returns (signal: Option<Direction>)
    ensures signal == Decide(buy, sell, b, s, published)
  {
    if b > s && Trigger(buy) && b >= 1.0 && (published >= STANDALONE_MIN_SCORE || Clear(buy)) {
      signal := Some(Buy);
    } else if s > b && Trigger(sell) && s >= 1.0 && (published >= STANDALONE_MIN_SCORE || Clear(sell)) {
      signal := Some(Sell);
    } else {
      signal := None;
    }
  }

  lemma OpenTriggerScores(e: Evidence)
    requires Trigger(e) && !Clear(e) && Score(e) >= 1.0
    ensures Score(e) >= 1.1
  {
  }

  lemma PublishedClearsFloor(buy: real, sell: real)
    ensures Max(buy, sell) >= 1.1 ==> Published(buy, sell) >= STANDALONE_MIN_SCORE
  {
    var x := Max(buy, sell) / 6.5 * 100.0;
    if Max(buy, sell) >= 1.1 {
      RoundIntMonotone(16.9, x);
      assert RoundInt(16.9) == 17;
    }
  }

  lemma FiresWithoutFloor(mine: real, other: real, published: real, e: Evidence)
    requires mine == Score(e) && (mine >= 1.1 && mine > other ==> published >= STANDALONE_MIN_SCORE)
    ensures Fires(mine, other, published, e) <==> mine > other && Trigger(e) && mine >= 1.0
  {
    if Trigger(e) && !Clear(e) && mine >= 1.0 {
      OpenTriggerScores(e);
    }
  }

  predicate Outweighs(mine: Evidence, other: Evidence) {
    Score(mine) > Score(other) && Trigger(mine) && Score(mine) >= 1.0
  }

  /**
   * The score floor never decides: a direction is signalled exactly when it
   * outweighs the other, has a trigger and scores at least 1.
   */
  lemma FloorNeverDecides(buy: Evidence, sell: Evidence)
    ensures PaSignal(buy, sell).0 == Some(Buy) <==> Outweighs(buy, sell)
    ensures PaSignal(buy, sell).0 == Some(Sell) <==> Outweighs(sell, buy)
  {
    PublishedClearsFloor(Score(buy), Score(sell));
    DecideIff(buy, sell, Published(Score(buy), Score(sell)));
  }

  lemma DecideIff(buy: Evidence, sell: Evidence, published: real)
    requires Max(Score(buy), Score(sell)) >= 1.1 ==> published >= STANDALONE_MIN_SCORE
    ensures Decide(buy, sell, Score(buy), Score(sell), published) == Some(Buy) <==> Outweighs(buy, sell)
    ensures Decide(buy, sell, Score(buy), Score(sell), published) == Some(Sell) <==> Outweighs(sell, buy)
  {
    FiresWithoutFloor(Score(buy), Score(sell), published, buy);
    FiresWithoutFloor(Score(sell), Score(buy), published, sell);
  }

  // ------------------------------------------------------- the whole engine

  predicate NearLevel(levels: seq<real>, c: Candle, tolerance: real) {
    exists level <- levels :: Touches(c, level, level, tolerance)
  }

  predicate NearZone(zones: seq<Zone>, c: Candle, tolerance: real) {
    exists z <- zones :: Touches(c, z.bottom, z.top, tolerance)
  }

  /** All flags of one analysis. */
  datatype Flags = Flags(patterns: Patterns, breakouts: Breakouts, zone: Sides, level: Sides)

  function BuyEvidence(f: Flags): Evidence {
    Evidence(f.patterns.engulf.bull, f.patterns.pin.bull, f.patterns.strong.bull, f.breakouts.valid.bull,
             f.breakouts.fake.bull, f.breakouts.pullback.bull, f.breakouts.inside.sides.bull, f.zone.bull || f.level.bull)
  }

  function SellEvidence(f: Flags): Evidence {
    Evidence(f.patterns.engulf.bear, f.patterns.pin.bear, f.patterns.strong.bear, f.breakouts.valid.bear,
             f.breakouts.fake.bear, f.breakouts.pullback.bear, f.breakouts.inside.sides.bear, f.zone.bear || f.level.bear)
  }

  /** The flags from given levels; `near` is the wider tolerance of the proximity tests. */
  function Analyze(candles: seq<Candle>, lv: Levels, tolerance: real, near: real, atr: real): Flags
    requires |candles| >= 2
  {
    var n := |candles|;
    var curr := candles[n - 1];
    Flags(DetectPatterns(candles[n - 2], curr, atr), BreakoutsAndPullbacks(candles, lv, tolerance, atr),
          ZoneSides(lv, curr, near), LevelSides(lv, curr, near))
  }

  function ZoneSides(lv: Levels, c: Candle, near: real): Sides {
    Sides(NearZone(lv.demand, c, near), NearZone(lv.supply, c, near))
  }

  function LevelSides(lv: Levels, c: Candle, near: real): Sides {
    Sides(NearLevel(lv.support, c, near), NearLevel(lv.resistance, c, near))
  }

  function MirrorFlags(f: Flags, centre: real): Flags {
    Flags(MirrorPatterns(f.patterns), MirrorBreakouts(f.breakouts, centre), Swap(f.zone), Swap(f.level))
  }

  lemma MirrorSwapsLevels(lv: Levels, c: Candle, tolerance: real, centre: real)
    ensures LevelSides(MirrorLevels(lv, centre), Mirror(c, centre), tolerance) == Swap(LevelSides(lv, c, tolerance))
  {
    var m, mc := MirrorLevels(lv, centre), Mirror(c, centre);
    ExistsMirrored(lv.resistance, m.support, x => Touches(c, x, x, tolerance), x => Touches(mc, x, x, tolerance));
    ExistsMirrored(lv.support, m.resistance, x => Touches(c, x, x, tolerance), x => Touches(mc, x, x, tolerance));
  }

  lemma MirrorSwapsZones(lv: Levels, c: Candle, tolerance: real, centre: real)
    ensures ZoneSides(MirrorLevels(lv, centre), Mirror(c, centre), tolerance) == Swap(ZoneSides(lv, c, tolerance))
  {
    var m, mc := MirrorLevels(lv, centre), Mirror(c, centre);
    ExistsMirrored(lv.supply, m.demand, (z: Zone) => Touches(c, z.bottom, z.top, tolerance),
                   (z: Zone) => Touches(mc, z.bottom, z.top, tolerance));
    ExistsMirrored(lv.demand, m.supply, (z: Zone) => Touches(c, z.bottom, z.top, tolerance),
                   (z: Zone) => Touches(mc, z.bottom, z.top, tolerance));
  }

  lemma MirrorSwapsFlags(candles: seq<Candle>, lv: Levels, tolerance: real, near: real, atr: real, centre: real)
    requires |candles| >= 2
    ensures Analyze(Mirrored(candles, centre), MirrorLevels(lv, centre), tolerance, near, atr)
         == MirrorFlags(Analyze(candles, lv, tolerance, near, atr), centre)
  {
    var n := |candles|;
    MirrorSwapsPatterns(candles[n - 2], candles[n - 1], atr, centre);
    MirrorSwapsBreakouts(candles, lv, tolerance, atr, centre);
    MirrorSwapsZones(lv, candles[n - 1], near, centre);
    MirrorSwapsLevels(lv, candles[n - 1], near, centre);
  }

  /** A candle is near a support level, or a demand zone, that lies within the tolerance of its range. */
  lemma NearMeans(candles: seq<Candle>, lv: Levels, tolerance: real, near: real, atr: real)
    requires |candles| >= 2
    ensures var f, c := Analyze(candles, lv, tolerance, near, atr), candles[|candles| - 1];
      && (f.level.bull <==> exists x <- lv.support :: c.low - near <= x <= c.high + near)
      && (f.level.bear <==> exists x <- lv.resistance :: c.low - near <= x <= c.high + near)
      && (f.zone.bull <==> exists z <- lv.demand :: c.low - near <= z.top && z.bottom <= c.high + near)
      && (f.zone.bear <==> exists z <- lv.supply :: c.low - near <= z.top && z.bottom <= c.high + near)
  {
    var c := candles[|candles| - 1];
    assert forall bottom, top :: Touches(c, bottom, top, near) <==> c.low - near <= top && bottom <= c.high + near;
  }

  /** What a plain pattern adds to its side. */
  lemma PatternWeights(e: Evidence)
    requires !e.fake
    ensures Score(e.(engulf := true)) == Score(e.(engulf := false)) + 1.5
    ensures Score(e.(strong := true)) == Score(e.(strong := false)) + 1.0
  {
  }

  /** A pin near a level weighs almost twice as much, and nearness adds that difference. */
  lemma PinWeights(e: Evidence)
    requires !e.fake
    ensures Score(e.(pin := true)) == Score(e.(pin := false)) + (if e.near then 1.5 else 0.8)
    ensures Score(e.(near := true)) == Score(e.(near := false)) + (if e.pin then 1.2 else 0.5)
  {
    GainsArePositive(e.(pin := false));
    GainsArePositive(e.(near := false));
  }

  /** What a fresh breakout and a pullback add. */
  lemma BreakoutWeights(e: Evidence)
    requires !e.fake
    ensures Score(e.(valid := true)) == Score(e.(valid := false)) + 1.0
    ensures Score(e.(pullback := true)) == Score(e.(pullback := false)) + 0.8
  {
    GainsArePositive(e.(valid := false));
    GainsArePositive(e.(pullback := false));
  }

  /** What an inside-bar breakout adds, what a failed breakout takes away, and that nothing scores nothing. */
  lemma InsideAndFakeWeights(e: Evidence)
    requires !e.fake
    ensures Score(e.(inside := true)) == Score(e.(inside := false)) + 1.2
    ensures Score(e.(fake := true)) == Max(0.0, Score(e) - 1.5)
    ensures Score(Evidence(false, false, false, false, false, false, false, false)) == 0.0
  {
  }

  /**
   * Whatever the levels, a BUY is signalled only on a rising candle or on a bullish pin
   * near a support or demand zone, a SELL only on the opposite.
   */
  lemma SignalFollowsCandle(candles: seq<Candle>, lv: Levels, tolerance: real, near: real, atr: real)
    requires |candles| >= 2
    ensures var f, c := Analyze(candles, lv, tolerance, near, atr), candles[|candles| - 1];
      var signal := PaSignal(BuyEvidence(f), SellEvidence(f)).0;
      && (signal == Some(Buy) ==> c.close > c.open || (f.patterns.pin.bull && (f.zone.bull || f.level.bull)))
      && (signal == Some(Sell) ==> c.close < c.open || (f.patterns.pin.bear && (f.zone.bear || f.level.bear)))
  {
    var f := Analyze(candles, lv, tolerance, near, atr);
    FloorNeverDecides(BuyEvidence(f), SellEvidence(f));
    FlagsFollowCandle(candles, lv, tolerance, near, atr);
  }

  /** Evidence only a candle in the same direction gives. */
  predicate Rises(e: Evidence) {
    e.engulf || e.strong || e.valid || e.pullback || e.inside
  }

  lemma FlagsFollowCandle(candles: seq<Candle>, lv: Levels, tolerance: real, near: real, atr: real)
    requires |candles| >= 2
    ensures var f, c := Analyze(candles, lv, tolerance, near, atr), candles[|candles| - 1];
      && (Rises(BuyEvidence(f)) ==> c.close > c.open)
      && (Rises(SellEvidence(f)) ==> c.close < c.open)
  {
    var n := |candles|;
    EngulfingMeans(candles[n - 2], candles[n - 1], atr);
    StrongMeans(candles[n - 2], candles[n - 1], atr);
    BreakoutMeans(candles, lv, tolerance, atr);
    PullbackMeans(candles, lv, tolerance, atr);
    InsideMeans(candles, atr);
  }

  const NO_LEVELS := Levels([], [], [], [])

  /** With no levels given, the signal is the direction in which the last candle engulfs or leaves an inside structure. */
  lemma BareSignalIff(candles: seq<Candle>, tolerance: real, near: real, atr: real)
    requires |candles| >= 2
    ensures var f := Analyze(candles, NO_LEVELS, tolerance, near, atr);
      var signal := PaSignal(BuyEvidence(f), SellEvidence(f)).0;
      && (signal == Some(Buy) <==> f.patterns.engulf.bull || f.breakouts.inside.sides.bull)
      && (signal == Some(Sell) <==> f.patterns.engulf.bear || f.breakouts.inside.sides.bear)
  {
    var f := Analyze(candles, NO_LEVELS, tolerance, near, atr);
    FlagsFollowCandle(candles, NO_LEVELS, tolerance, near, atr);
    FloorNeverDecides(BuyEvidence(f), SellEvidence(f));
    NearMeans(candles, NO_LEVELS, tolerance, near, atr);
    BareScores(BuyEvidence(f), SellEvidence(f));
    BareScores(SellEvidence(f), BuyEvidence(f));
  }

  lemma BareScores(mine: Evidence, other: Evidence)
    requires !mine.near && !mine.valid && !mine.fake && !mine.pullback
    requires !other.near && !other.valid && !other.fake && !other.pullback
    requires mine.engulf || mine.inside ==> !other.engulf && !other.inside && !other.strong
    ensures Outweighs(mine, other) <==> mine.engulf || mine.inside
  {
  }

  lemma SwappedEvidence(buy: Evidence, sell: Evidence)
    ensures PaSignal(sell, buy).0
         == (if PaSignal(buy, sell).0.Some? then Some(Opposite(PaSignal(buy, sell).0.value)) else None)
    ensures PaSignal(sell, buy).1 == PaSignal(buy, sell).1
  {
    FloorNeverDecides(buy, sell);
    FloorNeverDecides(sell, buy);
    assert Max(Score(buy), Score(sell)) == Max(Score(sell), Score(buy));
  }

  /** Turning the market upside down, levels included, flips the signal and keeps its score. */
  lemma MirrorFlipsSignal(candles: seq<Candle>, lv: Levels, tolerance: real, near: real, atr: real, centre: real)
    requires |candles| >= 2
    ensures var f := Analyze(candles, lv, tolerance, near, atr);
      var m := Analyze(Mirrored(candles, centre), MirrorLevels(lv, centre), tolerance, near, atr);
      var r := PaSignal(BuyEvidence(f), SellEvidence(f));
      PaSignal(BuyEvidence(m), SellEvidence(m)) == (if r.0.Some? then Some(Opposite(r.0.value)) else None, r.1)
  {
    var f := Analyze(candles, lv, tolerance, near, atr);
    MirrorSwapsFlags(candles, lv, tolerance, near, atr, centre);
    SwappedEvidence(BuyEvidence(f), SellEvidence(f));
  }
}
