// Wilder's directional movement, computed independently by the market-regime
// and the trend engine.
module DirectionalMovement {
  import opened Market
  import opened Options
  import opened Rounding

  // --------------------------------------------------------- specification

  function TrueRange(c: Candle, p: Candle): real {
    Max(Max(c.high - c.low, Abs(c.high - p.close)), Abs(c.low - p.close))
  }

  function PlusMove(c: Candle, p: Candle): real {
    var up, down := c.high - p.high, p.low - c.low;
    if up > down && up > 0.0 then up else 0.0
  }

  function MinusMove(c: Candle, p: Candle): real {
    var up, down := c.high - p.high, p.low - c.low;
    if down > up && down > 0.0 then down else 0.0
  }

  /** `f` applied to every candle and its predecessor. */
  function Pairwise(f: (Candle, Candle) -> real, candles: seq<Candle>): (xs: seq<real>)
    ensures |xs| == if candles == [] then 0 else |candles| - 1
    ensures forall k :: 0 <= k < |xs| ==> xs[k] == f(candles[k + 1], candles[k])
  {
    if candles == [] then []
    else seq(|candles| - 1, k requires 0 <= k < |candles| - 1 => f(candles[k + 1], candles[k]))
  }

  function Sum(xs: seq<real>): real {
    if xs == [] then 0.0 else Sum(xs[..|xs| - 1]) + xs[|xs| - 1]
  }

  function Smooth(before: real, period: nat, x: real): real
    requires 0 < period
  {
    before - before / period as real + x
  }

  /** Wilder's running sum of `xs` after `i` values, seeded with the sum of the first `period`. */
  function Wilder(xs: seq<real>, period: nat, i: nat): real
    requires 0 < period <= i <= |xs|
  {
    if i == period then Sum(xs[..period])
    else
      Smooth(Wilder(xs, period, i - 1), period, xs[i - 1])
  }

  /** A smoothed movement as a percentage of the smoothed true range. */
  function Index(moved: real, ranged: real): real {
    if ranged > 0.0 then 100.0 * moved / ranged else 0.0
  }

  function Dx(plus: real, minus: real): real {
    var total := plus + minus;
    if total > 0.0 then 100.0 * Abs(plus - minus) / total else 0.0
  }

  /** The running sums after period + 1, ..., i values. */
  function Smoothed(xs: seq<real>, period: nat, i: nat): (sums: seq<real>)
    requires 0 < period <= i <= |xs|
    ensures |sums| == i - period
    ensures forall k :: 0 <= k < |sums| ==> sums[k] == Wilder(xs, period, period + 1 + k)
  {
    if i == period then [] else Smoothed(xs, period, i - 1) + [Wilder(xs, period, i)]
  }

  function ZipWith(f: (real, real) -> real, xs: seq<real>, ys: seq<real>): (zs: seq<real>)
    requires |xs| == |ys|
    ensures |zs| == |xs|
    ensures forall k :: 0 <= k < |zs| ==> zs[k] == f(xs[k], ys[k])
  {
    seq(|xs|, k requires 0 <= k < |xs| => f(xs[k], ys[k]))
  }

  function IndexSeries(moved: seq<real>, ranged: seq<real>, period: nat): (di: seq<real>)
    requires 0 < period <= |moved| == |ranged|
    ensures |di| == |moved| - period
  {
    ZipWith(Index, Smoothed(moved, period, |moved|), Smoothed(ranged, period, |ranged|))
  }

  /** The successive +DI (or -DI) values for the movements `f`. */
  function DiSeries(f: (Candle, Candle) -> real, candles: seq<Candle>, period: nat): (di: seq<real>)
    requires 0 < period < |candles|
    ensures |di| == |candles| - 1 - period
  {
    IndexSeries(Pairwise(f, candles), Pairwise(TrueRange, candles), period)
  }

  function DxSeries(candles: seq<Candle>, period: nat): (dx: seq<real>)
    requires 0 < period < |candles|
    ensures |dx| == |candles| - 1 - period
  {
    ZipWith(Dx, DiSeries(PlusMove, candles, period), DiSeries(MinusMove, candles, period))
  }

  /** The latest value of a series; zero before the first. */
  function Latest(xs: seq<real>): real {
    if xs == [] then 0.0 else xs[|xs| - 1]
  }

  function MeanOfLast(dx: seq<real>, period: nat): real
    requires 0 < period <= |dx|
  {
    Round2(Mean(dx, period))
  }

  function Mean(dx: seq<real>, period: nat): real
    requires 0 < period <= |dx|
  {
    Sum(dx[|dx| - period..]) / period as real
  }

  /** The mean of the last `period` DX values; 20 while there are fewer. */
  function Adx(candles: seq<Candle>, period: nat): real
    requires 0 < period
  {
    if |candles| <= 2 * period then 20.0
    else MeanOfLast(DxSeries(candles, period), period)
  }

  // ---------------------------------------------------------------- methods

  method Movements(candles: seq<Candle>) returns (trs: seq<real>, plus: seq<real>, minus: seq<real>)
    requires candles != []
    ensures trs == Pairwise(TrueRange, candles)
    ensures plus == Pairwise(PlusMove, candles)
    ensures minus == Pairwise(MinusMove, candles)
  {
    trs, plus, minus := [], [], [];
    for i := 1 to |candles|
      invariant |trs| == |plus| == |minus| == i - 1
      invariant forall k :: 0 <= k < i - 1 ==> trs[k] == TrueRange(candles[k + 1], candles[k])
      invariant forall k :: 0 <= k < i - 1 ==> plus[k] == PlusMove(candles[k + 1], candles[k])
      invariant forall k :: 0 <= k < i - 1 ==> minus[k] == MinusMove(candles[k + 1], candles[k])
    {
      var c, p := candles[i], candles[i - 1];
      trs, plus, minus := trs + [TrueRange(c, p)], plus + [PlusMove(c, p)], minus + [MinusMove(c, p)];
    }
  }

  lemma ZipAppend(f: (real, real) -> real, xs: seq<real>, ys: seq<real>, x: real, y: real)
    requires |xs| == |ys|
    ensures ZipWith(f, xs + [x], ys + [y]) == ZipWith(f, xs, ys) + [f(x, y)]
  {
  }

  /** The market-regime engine's smoothing loop, which keeps the latest indices. */
  method RegimeSmoothing(trs: seq<real>, dmPlus: seq<real>, dmMinus: seq<real>, period: nat)
    returns (dxs: seq<real>, diPlus: real, diMinus: real)
    requires 0 < period <= |trs| == |dmPlus| == |dmMinus|
    ensures diPlus == Latest(IndexSeries(dmPlus, trs, period)) && diMinus == Latest(IndexSeries(dmMinus, trs, period))
    ensures dxs == ZipWith(Dx, IndexSeries(dmPlus, trs, period), IndexSeries(dmMinus, trs, period))
  {
    var tr, plus, minus := Sum(trs[..period]), Sum(dmPlus[..period]), Sum(dmMinus[..period]);
    dxs, diPlus, diMinus := [], 0.0, 0.0;
    ghost var trSums: seq<real>, plusSums: seq<real>, minusSums: seq<real> := [], [], [];
    ghost var plusDis: seq<real>, minusDis: seq<real> := [], [];
    for i := period to |trs|
      invariant tr == Wilder(trs, period, i) && plus == Wilder(dmPlus, period, i) && minus == Wilder(dmMinus, period, i)
      invariant trSums == Smoothed(trs, period, i)
      invariant plusSums == Smoothed(dmPlus, period, i) && minusSums == Smoothed(dmMinus, period, i)
      invariant plusDis == ZipWith(Index, plusSums, trSums) && minusDis == ZipWith(Index, minusSums, trSums)
      invariant dxs == ZipWith(Dx, plusDis, minusDis)
      invariant diPlus == Latest(plusDis) && diMinus == Latest(minusDis)
    {
      tr, plus, minus := Smooth(tr, period, trs[i]), Smooth(plus, period, dmPlus[i]), Smooth(minus, period, dmMinus[i]);
      diPlus, diMinus := Index(plus, tr), Index(minus, tr);
      dxs := dxs + [Dx(diPlus, diMinus)];
      ZipAppend(Index, plusSums, trSums, plus, tr);
      ZipAppend(Index, minusSums, trSums, minus, tr);
      ZipAppend(Dx, plusDis, minusDis, diPlus, diMinus);
      trSums, plusSums, minusSums := trSums + [tr], plusSums + [plus], minusSums + [minus];
      plusDis, minusDis := plusDis + [diPlus], minusDis + [diMinus];
    }
  }

  /** The market-regime engine's version; the direction is None when neutral. */
  method CalcAdxDetails(candles: seq<Candle>, period: nat)
    returns (adx: real, direction: Option<Direction>, diPlus: real, diMinus: real)
    requires 0 < period
    ensures adx == Adx(candles, period)
    ensures |candles| <= 2 * period ==> adx == 20.0
    ensures |candles| < 2 * period ==> direction == None && diPlus == diMinus == 0.0
    ensures |candles| >= 2 * period ==>
      diPlus == Latest(DiSeries(PlusMove, candles, period)) && diMinus == Latest(DiSeries(MinusMove, candles, period))
    ensures |candles| == 2 * period ==> direction == None
    ensures |candles| > 2 * period ==>
      (direction == Some(Buy) <==> diPlus > diMinus) && (direction == Some(Sell) <==> diMinus > diPlus)
  {
    if |candles| < 2 * period {
      return 20.0, None, 0.0, 0.0;
    }
    var trs, dmPlus, dmMinus := Movements(candles);
    var dxs;
    dxs, diPlus, diMinus := RegimeSmoothing(trs, dmPlus, dmMinus, period);
    if |dxs| < period {
      return 20.0, None, diPlus, diMinus;
    }
    direction := if diPlus > diMinus then Some(Buy) else if diMinus > diPlus then Some(Sell) else None;
    adx := MeanOfLast(dxs, period);
  }

  /** The trend engine's smoothing loop, which keeps only the sums. */
  method TrendSmoothing(trs: seq<real>, dmPlus: seq<real>, dmMinus: seq<real>, period: nat)
    returns (dxs: seq<real>, tr: real, plus: real, minus: real)
    requires 0 < period <= |trs| == |dmPlus| == |dmMinus|
    ensures var n := |trs|;
      && tr == Wilder(trs, period, n) && plus == Wilder(dmPlus, period, n) && minus == Wilder(dmMinus, period, n)
      && dxs == ZipWith(Dx, IndexSeries(dmPlus, trs, period), IndexSeries(dmMinus, trs, period))
  {
    tr, plus, minus := Sum(trs[..period]), Sum(dmPlus[..period]), Sum(dmMinus[..period]);
    dxs := [];
    ghost var trSums: seq<real>, plusDis: seq<real>, minusDis: seq<real> := [], [], [];
    for i := period to |trs|
      invariant tr == Wilder(trs, period, i) && plus == Wilder(dmPlus, period, i) && minus == Wilder(dmMinus, period, i)
      invariant trSums == Smoothed(trs, period, i)
      invariant plusDis == ZipWith(Index, Smoothed(dmPlus, period, i), trSums)
      invariant minusDis == ZipWith(Index, Smoothed(dmMinus, period, i), trSums)
      invariant dxs == ZipWith(Dx, plusDis, minusDis)
    {
      tr := Smooth(tr, period, trs[i]);
      plus := Smooth(plus, period, dmPlus[i]);
      minus := Smooth(minus, period, dmMinus[i]);
      var plusDi, minusDi := Index(plus, tr), Index(minus, tr);
      dxs := dxs + [Dx(plusDi, minusDi)];
      ZipAppend(Index, Smoothed(dmPlus, period, i), trSums, plus, tr);
      ZipAppend(Index, Smoothed(dmMinus, period, i), trSums, minus, tr);
      ZipAppend(Dx, plusDis, minusDis, plusDi, minusDi);
      trSums, plusDis, minusDis := trSums + [tr], plusDis + [plusDi], minusDis + [minusDi];
    }
  }

  /** The trend engine's version, which reports rounded indices and none before the first ADX. */
  method CalcDmi(candles: seq<Candle>, period: nat) returns (adx: real, plusDi: real, minusDi: real)
    requires 0 < period
    ensures adx == Adx(candles, period)
    ensures |candles| <= 2 * period ==> adx == 20.0
    ensures |candles| <= 2 * period ==> plusDi == minusDi == 0.0
    ensures |candles| > 2 * period ==>
      && plusDi == Round2(Latest(DiSeries(PlusMove, candles, period)))
      && minusDi == Round2(Latest(DiSeries(MinusMove, candles, period)))
  {
    if |candles| < 2 * period {
      return 20.0, 0.0, 0.0;
    }
    var trs, dmPlus, dmMinus := Movements(candles);
    var dxs, tr, plus, minus := TrendSmoothing(trs, dmPlus, dmMinus, period);
    if |dxs| < period {
      return 20.0, 0.0, 0.0;
    }
    plusDi, minusDi := Round2(Index(plus, tr)), Round2(Index(minus, tr));
    adx := MeanOfLast(dxs, period);
  }

  // ------------------------------------------------------------- properties

  lemma ShareWithin(s: real, period: nat)
    requires s >= 0.0 && period > 0
    ensures 0.0 <= s / period as real <= s
  {
    var q := s / period as real;
    assert q * period as real == s;
    assert (period - 1) as real * q >= 0.0 <== q >= 0.0;
  }

  lemma SmoothSplits(x: real, y: real, period: nat, dx: real, dy: real)
    requires period > 0
    ensures Smooth(x, period, dx) + Smooth(y, period, dy) == Smooth(x + y, period, dx + dy)
  {
    assert x / period as real + y / period as real == (x + y) / period as real;
  }

  lemma SmoothStaysPositive(x: real, period: nat, dx: real)
    requires period > 0 && x >= 0.0 && dx >= 0.0
    ensures Smooth(x, period, dx) >= 0.0
  {
    ShareWithin(x, period);
  }

  lemma {:induction false} SumMonotone(xs: seq<real>, ys: seq<real>, n: nat)
    requires n <= |xs| && n <= |ys| && forall k :: 0 <= k < n ==> 0.0 <= xs[k] <= ys[k]
    ensures 0.0 <= Sum(xs[..n]) <= Sum(ys[..n])
  {
    if n > 0 {
      SumMonotone(xs, ys, n - 1);
      assert xs[..n][..n - 1] == xs[..n - 1] && ys[..n][..n - 1] == ys[..n - 1];
    }
  }

  /** Smoothing keeps the order of two nonnegative series. */
  lemma {:induction false} WilderMonotone(xs: seq<real>, ys: seq<real>, period: nat, i: nat)
    requires 0 < period <= i <= |xs| && i <= |ys| && forall k :: 0 <= k < i ==> 0.0 <= xs[k] <= ys[k]
    ensures 0.0 <= Wilder(xs, period, i) <= Wilder(ys, period, i)
  {
    if i == period {
      SumMonotone(xs, ys, period);
    } else {
      WilderMonotone(xs, ys, period, i - 1);
      var a, b := Wilder(xs, period, i - 1), Wilder(ys, period, i - 1);
      SmoothStaysPositive(a, period, xs[i - 1]);
      SmoothStaysPositive(b - a, period, ys[i - 1] - xs[i - 1]);
      SmoothSplits(a, b - a, period, xs[i - 1], ys[i - 1] - xs[i - 1]);
    }
  }

  lemma {:induction false} SumAdds(xs: seq<real>, ys: seq<real>, zs: seq<real>, n: nat)
    requires n <= |xs| && n <= |ys| && n <= |zs| && forall k :: 0 <= k < n ==> zs[k] == xs[k] + ys[k]
    ensures Sum(zs[..n]) == Sum(xs[..n]) + Sum(ys[..n])
  {
    if n > 0 {
      SumAdds(xs, ys, zs, n - 1);
      assert xs[..n][..n - 1] == xs[..n - 1] && ys[..n][..n - 1] == ys[..n - 1] && zs[..n][..n - 1] == zs[..n - 1];
    }
  }

  lemma {:induction false} WilderAdds(xs: seq<real>, ys: seq<real>, zs: seq<real>, period: nat, i: nat)
    requires 0 < period <= i <= |xs| && i <= |ys| && i <= |zs|
    requires forall k :: 0 <= k < i ==> zs[k] == xs[k] + ys[k]
    ensures Wilder(zs, period, i) == Wilder(xs, period, i) + Wilder(ys, period, i)
  {
    if i == period {
      SumAdds(xs, ys, zs, period);
    } else {
      WilderAdds(xs, ys, zs, period, i - 1);
      SmoothSplits(Wilder(xs, period, i - 1), Wilder(ys, period, i - 1), period, xs[i - 1], ys[i - 1]);
    }
  }

  lemma MovesFitTheRange(c: Candle, p: Candle)
    ensures 0.0 <= PlusMove(c, p) && 0.0 <= MinusMove(c, p) && 0.0 <= TrueRange(c, p)
    ensures ValidCandle(c) && ValidCandle(p) ==> PlusMove(c, p) + MinusMove(c, p) <= TrueRange(c, p)
  {
  }

  lemma AtMostWhole(part: real, whole: real)
    requires 0.0 < whole && 0.0 <= part <= 100.0 * whole
    ensures 0.0 <= part / whole <= 100.0
  {
    var q := part / whole;
    assert q * whole == part;
    assert q > 100.0 ==> (q - 100.0) * whole > 0.0;
  }

  lemma IndexNonnegative(moved: real, ranged: real)
    requires moved >= 0.0
    ensures Index(moved, ranged) >= 0.0
  {
  }

  lemma IndicesShare(plus: real, minus: real, ranged: real)
    requires 0.0 <= plus && 0.0 <= minus && plus + minus <= ranged
    ensures Index(plus, ranged) + Index(minus, ranged) <= 100.0
  {
    if ranged > 0.0 {
      AtMostWhole(100.0 * plus + 100.0 * minus, ranged);
      assert Index(plus, ranged) + Index(minus, ranged) == (100.0 * plus + 100.0 * minus) / ranged;
    }
  }

  lemma DxIsPercentage(plus: real, minus: real)
    requires plus >= 0.0 && minus >= 0.0
    ensures 0.0 <= Dx(plus, minus) <= 100.0
  {
    var total := plus + minus;
    if total > 0.0 {
      AtMostWhole(100.0 * Abs(plus - minus), total);
    }
  }

  predicate Fit(plus: real, minus: real, ranged: real, consistent: bool) {
    plus >= 0.0 && minus >= 0.0 && (consistent ==> plus + minus <= ranged)
  }

  predicate AllFit(plus: seq<real>, minus: seq<real>, ranged: seq<real>, consistent: bool) {
    && |plus| == |minus| == |ranged|
    && forall k :: 0 <= k < |plus| ==> Fit(plus[k], minus[k], ranged[k], consistent)
  }

  lemma WilderFit(plus: seq<real>, minus: seq<real>, ranged: seq<real>, period: nat, i: nat, consistent: bool)
    requires 0 < period <= i <= |plus| && AllFit(plus, minus, ranged, consistent)
    ensures Fit(Wilder(plus, period, i), Wilder(minus, period, i), Wilder(ranged, period, i), consistent)
  {
    WilderMonotone(plus, plus, period, i);
    WilderMonotone(minus, minus, period, i);
    if consistent {
      var both := seq(i, k requires 0 <= k < i => plus[k] + minus[k]);
      WilderAdds(plus, minus, both, period, i);
      WilderMonotone(both, ranged, period, i);
    }
  }

  lemma {:induction false} SmoothedFit(plus: seq<real>, minus: seq<real>, ranged: seq<real>,
                                       period: nat, i: nat, consistent: bool)
    requires 0 < period <= i <= |plus| && AllFit(plus, minus, ranged, consistent)
    ensures AllFit(Smoothed(plus, period, i), Smoothed(minus, period, i), Smoothed(ranged, period, i), consistent)
  {
    if i > period {
      SmoothedFit(plus, minus, ranged, period, i - 1, consistent);
      WilderFit(plus, minus, ranged, period, i, consistent);
    }
  }

  /** Paired indices are nonnegative, and share at most 100 when the candles are consistent. */
  predicate Bounded(plus: seq<real>, minus: seq<real>, consistent: bool) {
    && |plus| == |minus|
    && forall k :: 0 <= k < |plus| ==> Fit(plus[k], minus[k], 100.0, consistent)
  }

  lemma IndicesBounded(plus: seq<real>, minus: seq<real>, ranged: seq<real>, consistent: bool)
    requires AllFit(plus, minus, ranged, consistent)
    ensures Bounded(ZipWith(Index, plus, ranged), ZipWith(Index, minus, ranged), consistent)
  {
    forall k | 0 <= k < |plus|
      ensures Fit(Index(plus[k], ranged[k]), Index(minus[k], ranged[k]), 100.0, consistent) {
      IndexNonnegative(plus[k], ranged[k]);
      IndexNonnegative(minus[k], ranged[k]);
      if consistent {
        IndicesShare(plus[k], minus[k], ranged[k]);
      }
    }
  }

  /** Both indices are nonnegative on any candles, and on consistent candles share at most 100. */
  lemma DirectionalIndicesBounded(candles: seq<Candle>, period: nat)
    requires 0 < period < |candles|
    ensures Bounded(DiSeries(PlusMove, candles, period), DiSeries(MinusMove, candles, period), ValidCandles(candles))
  {
    EveryMoveFits(candles);
    IndexSeriesBounded(Pairwise(PlusMove, candles), Pairwise(MinusMove, candles), Pairwise(TrueRange, candles),
                       period, ValidCandles(candles));
  }

  lemma IndexSeriesBounded(plus: seq<real>, minus: seq<real>, ranged: seq<real>, period: nat, consistent: bool)
    requires 0 < period <= |plus| && AllFit(plus, minus, ranged, consistent)
    ensures Bounded(IndexSeries(plus, ranged, period), IndexSeries(minus, ranged, period), consistent)
  {
    var n := |plus|;
    SmoothedFit(plus, minus, ranged, period, n, consistent);
    IndicesBounded(Smoothed(plus, period, n), Smoothed(minus, period, n), Smoothed(ranged, period, n), consistent);
  }

  lemma EveryMoveFits(candles: seq<Candle>)
    ensures AllFit(Pairwise(PlusMove, candles), Pairwise(MinusMove, candles), Pairwise(TrueRange, candles),
                   ValidCandles(candles))
  {
    forall j | 0 <= j < |candles| - 1
      ensures Fit(PlusMove(candles[j + 1], candles[j]), MinusMove(candles[j + 1], candles[j]),
                  TrueRange(candles[j + 1], candles[j]), ValidCandles(candles)) {
      MovesFitTheRange(candles[j + 1], candles[j]);
      assert candles[j + 1] in candles && candles[j] in candles;
    }
  }

  predicate Percentages(xs: seq<real>) {
    forall k :: 0 <= k < |xs| ==> 0.0 <= xs[k] <= 100.0
  }

  lemma DxSeriesIsPercentage(plus: seq<real>, minus: seq<real>)
    requires Bounded(plus, minus, false)
    ensures Percentages(ZipWith(Dx, plus, minus))
  {
    forall k | 0 <= k < |plus| ensures 0.0 <= Dx(plus[k], minus[k]) <= 100.0 {
      DxIsPercentage(plus[k], minus[k]);
    }
  }

  lemma {:induction false} SumOfPercentages(xs: seq<real>)
    requires Percentages(xs)
    ensures 0.0 <= Sum(xs) <= 100.0 * |xs| as real
  {
    if xs != [] {
      SumOfPercentages(xs[..|xs| - 1]);
    }
  }

  /** ADX is a percentage on every input, consistent candles or not. */
  lemma AdxIsPercentage(candles: seq<Candle>, period: nat)
    requires 0 < period
    ensures 0.0 <= Adx(candles, period) <= 100.0
  {
    if |candles| > 2 * period {
      var plus, minus := DiSeries(PlusMove, candles, period), DiSeries(MinusMove, candles, period);
      DirectionalIndicesBounded(candles, period);
      DxSeriesIsPercentage(plus, minus);
      MeanIsPercentage(DxSeries(candles, period), period);
    }
  }

  lemma MeanIsPercentage(dx: seq<real>, period: nat)
    requires 0 < period <= |dx| && Percentages(dx)
    ensures 0.0 <= MeanOfLast(dx, period) <= 100.0
  {
    var tail := dx[|dx| - period..];
    SumOfPercentages(tail);
    AtMostWhole(Sum(tail), period as real);
    Round2Percentage(Mean(dx, period));
  }

  lemma Round2Percentage(x: real)
    requires 0.0 <= x <= 100.0
    ensures 0.0 <= Round2(x) <= 100.0
  {
    RoundIntExact(0);
    RoundIntExact(10000);
    RoundIntMonotone(0.0, x * 100.0);
    RoundIntMonotone(x * 100.0, 10000.0);
  }

  // -------------------------------------------------- what is averaged

  lemma {:induction false} SumBetween(xs: seq<real>, low: real, high: real)
    requires forall k :: 0 <= k < |xs| ==> low <= xs[k] <= high
    ensures low * |xs| as real <= Sum(xs) <= high * |xs| as real
  {
    if xs != [] {
      SumBetween(xs[..|xs| - 1], low, high);
    }
  }

  lemma QuotientBetween(total: real, n: nat, low: real, high: real)
    requires n > 0 && low * n as real <= total <= high * n as real
    ensures low <= total / n as real <= high
  {
    var q := total / n as real;
    assert q * n as real == total;
    assert q < low ==> (low - q) * n as real > 0.0;
    assert q > high ==> (q - high) * n as real > 0.0;
  }

  /** The mean lies between any bounds of the newest `period` values, whatever the older ones are. */
  lemma MeanIsOfNewest(dx: seq<real>, period: nat, low: real, high: real)
    requires 0 < period <= |dx| && forall k :: |dx| - period <= k < |dx| ==> low <= dx[k] <= high
    ensures low <= Mean(dx, period) <= high
  {
    var tail := dx[|dx| - period..];
    SumBetween(tail, low, high);
    QuotientBetween(Sum(tail), period, low, high);
  }

  lemma {:induction false} SumFromFront(xs: seq<real>)
    requires xs != []
    ensures Sum(xs) == xs[0] + Sum(xs[1..])
  {
    if |xs| > 1 {
      SumFromFront(xs[..|xs| - 1]);
      assert xs[..|xs| - 1][1..] == xs[1..][..|xs| - 2];
    }
  }

  /** A new value moves the mean by its difference to the value that leaves the window, shared over the period. */
  lemma MeanRolls(dx: seq<real>, period: nat, x: real)
    requires 0 < period <= |dx|
    ensures Mean(dx + [x], period) == Mean(dx, period) + (x - dx[|dx| - period]) / period as real
  {
    var window, rolled := dx[|dx| - period..], (dx + [x])[|dx| + 1 - period..];
    assert rolled == window[1..] + [x];
    assert rolled[..period - 1] == window[1..];
    SumFromFront(window);
    SharesAdd(Sum(window), x - window[0], period as real);
  }

  lemma SharesAdd(a: real, b: real, n: real)
    requires n > 0.0
    ensures (a + b) / n == a / n + b / n
  {
  }

  lemma {:induction false} WilderOfPrefix(xs: seq<real>, ys: seq<real>, period: nat, i: nat)
    requires 0 < period <= i <= |xs|
    ensures Wilder(xs + ys, period, i) == Wilder(xs, period, i)
  {
    if i == period {
      assert (xs + ys)[..period] == xs[..period];
    } else {
      WilderOfPrefix(xs, ys, period, i - 1);
    }
  }

  /** Wilder's rule: a new value enters whole, and what was there before keeps all but one share of the period. */
  lemma NewestValueEnters(xs: seq<real>, x: real, period: nat)
    requires 0 < period <= |xs|
    ensures Wilder(xs + [x], period, |xs| + 1) * period as real
         == Wilder(xs, period, |xs|) * (period - 1) as real + x * period as real
  {
    WilderOfPrefix(xs, [x], period, |xs|);
    SmoothShare(Wilder(xs, period, |xs|), period, x);
  }

  lemma SmoothShare(before: real, period: nat, x: real)
    requires 0 < period
    ensures Smooth(before, period, x) * period as real == before * (period - 1) as real + x * period as real
  {
    var n := period as real;
    assert before / n * n == before;
    assert (before - before / n + x) * n == before * n - before / n * n + x * n;
  }

  // ------------------------------------------- markets with known readings

  /** A constant series is smoothed to `period` times its value. */
  lemma {:induction false} WilderConstant(xs: seq<real>, x: real, period: nat, i: nat)
    requires 0 < period <= i <= |xs| && forall k :: 0 <= k < i ==> xs[k] == x
    ensures Wilder(xs, period, i) == x * period as real
  {
    if i == period {
      SumBetween(xs[..period], x, x);
    } else {
      WilderConstant(xs, x, period, i - 1);
      SmoothSettles(x, period);
    }
  }

  lemma SmoothSettles(x: real, period: nat)
    requires period > 0
    ensures Smooth(x * period as real, period, x) == x * period as real
  {
    Cancel(x, period as real);
  }

  lemma Cancel(x: real, n: real)
    requires n > 0.0
    ensures x * n / n == x
  {
  }

  lemma {:induction false} WilderPositive(xs: seq<real>, period: nat, i: nat)
    requires 0 < period <= i <= |xs| && forall k :: 0 <= k < i ==> xs[k] > 0.0
    ensures Wilder(xs, period, i) > 0.0
  {
    if i == period {
      SumPositive(xs[..period]);
    } else {
      WilderPositive(xs, period, i - 1);
      ShareWithin(Wilder(xs, period, i - 1), period);
    }
  }

  lemma {:induction false} SumPositive(xs: seq<real>)
    requires xs != [] && forall k :: 0 <= k < |xs| ==> xs[k] > 0.0
    ensures Sum(xs) > 0.0
  {
    if |xs| > 1 {
      SumPositive(xs[..|xs| - 1]);
    }
  }

  predicate Constantly(xs: seq<real>, x: real) {
    forall k :: 0 <= k < |xs| ==> xs[k] == x
  }

  predicate AllPositive(xs: seq<real>) {
    forall k :: 0 <= k < |xs| ==> xs[k] > 0.0
  }

  /** When every candle makes the same movement in the same true range, the index is their ratio in percent. */
  lemma SteadyIndex(moved: seq<real>, ranged: seq<real>, period: nat, m: real, r: real)
    requires 0 < period <= |moved| == |ranged| && Constantly(moved, m) && Constantly(ranged, r) && r > 0.0
    ensures Constantly(IndexSeries(moved, ranged, period), 100.0 * m / r)
  {
    var index := 100.0 * m / r;
    forall k | 0 <= k < |moved| - period ensures IndexSeries(moved, ranged, period)[k] == index {
      SteadyAt(moved, ranged, period, m, r, index, k);
    }
  }

  lemma SteadyAt(moved: seq<real>, ranged: seq<real>, period: nat, m: real, r: real, index: real, k: nat)
    requires 0 < period <= |moved| == |ranged| && Constantly(moved, m) && Constantly(ranged, r) && r > 0.0
    requires index == 100.0 * m / r && k < |moved| - period
    ensures IndexSeries(moved, ranged, period)[k] == index
  {
    WilderConstant(moved, m, period, period + 1 + k);
    WilderConstant(ranged, r, period, period + 1 + k);
    IndexOfMultiples(Wilder(moved, period, period + 1 + k), Wilder(ranged, period, period + 1 + k), m, r, period as real);
  }

  lemma IndexOfMultiples(moved: real, ranged: real, m: real, r: real, n: real)
    requires r > 0.0 && n > 0.0 && moved == m * n && ranged == r * n
    ensures Index(moved, ranged) == 100.0 * m / r
  {
    var q := 100.0 * m / r;
    assert q * r == 100.0 * m;
    assert ranged > 0.0;
    Regroup(q, r, n);
    Regroup(100.0, m, n);
    assert q * ranged == 100.0 * moved;
    QuotientIs(100.0 * moved, ranged, q);
  }

  lemma Regroup(a: real, b: real, c: real)
    ensures a * (b * c) == a * b * c
  {
  }

  lemma QuotientIs(x: real, y: real, q: real)
    requires y > 0.0 && q * y == x
    ensures x / y == q
  {
  }

  lemma OneSidedIndices(moved: seq<real>, other: seq<real>, ranged: seq<real>, period: nat)
    requires 0 < period <= |moved| == |other| == |ranged|
    requires AllPositive(moved) && Constantly(other, 0.0) && AllPositive(ranged)
    ensures AllPositive(IndexSeries(moved, ranged, period)) && Constantly(IndexSeries(other, ranged, period), 0.0)
  {
    forall k | 0 <= k < |moved| - period
      ensures IndexSeries(moved, ranged, period)[k] > 0.0 && IndexSeries(other, ranged, period)[k] == 0.0 {
      WilderPositive(moved, period, period + 1 + k);
      WilderPositive(ranged, period, period + 1 + k);
      WilderConstant(other, 0.0, period, period + 1 + k);
      IndexSign(Wilder(moved, period, period + 1 + k), Wilder(ranged, period, period + 1 + k));
    }
  }

  lemma IndexSign(moved: real, ranged: real)
    requires ranged > 0.0
    ensures moved > 0.0 ==> Index(moved, ranged) > 0.0
    ensures Index(0.0, ranged) == 0.0
  {
    if moved > 0.0 {
      PositiveRatio(moved, ranged);
    }
  }

  lemma PositiveRatio(a: real, b: real)
    requires a > 0.0 && b > 0.0
    ensures 100.0 * a / b > 0.0
  {
    var q := 100.0 * a / b;
    assert q * b == 100.0 * a;
    assert q <= 0.0 ==> q * b <= 0.0;
  }

  lemma OneSidedDx(di: seq<real>, zero: seq<real>)
    requires |di| == |zero| && AllPositive(di) && Constantly(zero, 0.0)
    ensures Constantly(ZipWith(Dx, di, zero), 100.0)
  {
    forall k | 0 <= k < |di| ensures Dx(di[k], zero[k]) == 100.0 {
      assert 100.0 * di[k] / di[k] == 100.0;
    }
  }

  lemma MeanOfConstant(dx: seq<real>, period: nat, cents: int)
    requires 0 < period <= |dx| && Constantly(dx, cents as real / 100.0)
    ensures MeanOfLast(dx, period) == cents as real / 100.0
  {
    MeanIsOfNewest(dx, period, cents as real / 100.0, cents as real / 100.0);
    RoundIntExact(cents);
  }

  /** Every candle reaches higher than the one before without reaching lower. */
  predicate Climbs(candles: seq<Candle>) {
    forall k :: 0 <= k < |candles| - 1 ==> candles[k + 1].high > candles[k].high && candles[k + 1].low >= candles[k].low
  }

  predicate Sinks(candles: seq<Candle>) {
    forall k :: 0 <= k < |candles| - 1 ==> candles[k + 1].low < candles[k].low && candles[k + 1].high <= candles[k].high
  }

  /** A climbing market has no -DI and a full ADX, a sinking one no +DI and a full ADX. */
  lemma OneWayMarketIsFullTrend(candles: seq<Candle>, period: nat)
    requires 0 < period && |candles| > 2 * period && ValidCandles(candles) && (Climbs(candles) || Sinks(candles))
    ensures Adx(candles, period) == 100.0
    ensures Climbs(candles) ==> AllPositive(DiSeries(PlusMove, candles, period))
                                && Constantly(DiSeries(MinusMove, candles, period), 0.0)
    ensures Sinks(candles) ==> AllPositive(DiSeries(MinusMove, candles, period))
                               && Constantly(DiSeries(PlusMove, candles, period), 0.0)
  {
    var plus, minus, ranged := Pairwise(PlusMove, candles), Pairwise(MinusMove, candles), Pairwise(TrueRange, candles);
    OneWayMoves(candles);
    if Climbs(candles) {
      OneSidedIndices(plus, minus, ranged, period);
      OneSidedDx(DiSeries(PlusMove, candles, period), DiSeries(MinusMove, candles, period));
    } else {
      OneSidedIndices(minus, plus, ranged, period);
      OneSidedDx(DiSeries(MinusMove, candles, period), DiSeries(PlusMove, candles, period));
      DxIsSymmetric(DiSeries(MinusMove, candles, period), DiSeries(PlusMove, candles, period));
    }
    MeanOfConstant(DxSeries(candles, period), period, 10000);
  }

  lemma OneWayMoves(candles: seq<Candle>)
    requires ValidCandles(candles) && (Climbs(candles) || Sinks(candles))
    ensures AllPositive(Pairwise(TrueRange, candles))
    ensures Climbs(candles) ==> AllPositive(Pairwise(PlusMove, candles)) && Constantly(Pairwise(MinusMove, candles), 0.0)
    ensures Sinks(candles) ==> AllPositive(Pairwise(MinusMove, candles)) && Constantly(Pairwise(PlusMove, candles), 0.0)
  {
    forall k | 0 <= k < |candles| - 1 ensures MovesOneWay(candles[k + 1], candles[k], Climbs(candles), Sinks(candles)) {
      assert candles[k] in candles && candles[k + 1] in candles;
      OneWayMove(candles[k + 1], candles[k]);
    }
  }

  predicate MovesOneWay(c: Candle, p: Candle, up: bool, down: bool) {
    && TrueRange(c, p) > 0.0
    && (up ==> PlusMove(c, p) > 0.0 && MinusMove(c, p) == 0.0)
    && (down ==> MinusMove(c, p) > 0.0 && PlusMove(c, p) == 0.0)
  }

  lemma OneWayMove(c: Candle, p: Candle)
    requires ValidCandle(c) && ValidCandle(p)
    ensures c.high > p.high && c.low >= p.low ==> PlusMove(c, p) > 0.0 && MinusMove(c, p) == 0.0 && TrueRange(c, p) > 0.0
    ensures c.low < p.low && c.high <= p.high ==> MinusMove(c, p) > 0.0 && PlusMove(c, p) == 0.0 && TrueRange(c, p) > 0.0
  {
  }

  lemma FlatMove(c: Candle, p: Candle)
    requires c.high == p.high && c.low == p.low
    ensures PlusMove(c, p) == 0.0 && MinusMove(c, p) == 0.0
  {
  }

  lemma NoIndex(moved: seq<real>, ranged: seq<real>, period: nat)
    requires 0 < period <= |moved| == |ranged| && Constantly(moved, 0.0)
    ensures Constantly(IndexSeries(moved, ranged, period), 0.0)
  {
    forall k | 0 <= k < |moved| - period ensures IndexSeries(moved, ranged, period)[k] == 0.0 {
      WilderConstant(moved, 0.0, period, period + 1 + k);
      if Wilder(ranged, period, period + 1 + k) > 0.0 {
        IndexSign(0.0, Wilder(ranged, period, period + 1 + k));
      }
    }
  }

  lemma NoDx(xs: seq<real>, ys: seq<real>)
    requires |xs| == |ys| && Constantly(xs, 0.0) && Constantly(ys, 0.0)
    ensures Constantly(ZipWith(Dx, xs, ys), 0.0)
  {
  }

  /** A market that never leaves one range has no trend at all. */
  lemma FlatMarketHasNoTrend(candles: seq<Candle>, period: nat)
    requires 0 < period && |candles| > 2 * period
    requires forall k :: 0 <= k < |candles| - 1 ==>
               candles[k + 1].high == candles[k].high && candles[k + 1].low == candles[k].low
    ensures Adx(candles, period) == 0.0
  {
    var plus, minus, ranged := Pairwise(PlusMove, candles), Pairwise(MinusMove, candles), Pairwise(TrueRange, candles);
    forall k | 0 <= k < |plus| ensures plus[k] == 0.0 && minus[k] == 0.0 {
      FlatMove(candles[k + 1], candles[k]);
    }
    NoIndex(plus, ranged, period);
    NoIndex(minus, ranged, period);
    NoDx(DiSeries(PlusMove, candles, period), DiSeries(MinusMove, candles, period));
    MeanOfConstant(DxSeries(candles, period), period, 0);
  }

  // --------------------------------------------------------- the mirror

  lemma MirrorSwapsMoves(c: Candle, p: Candle, centre: real)
    ensures PlusMove(Mirror(c, centre), Mirror(p, centre)) == MinusMove(c, p)
    ensures MinusMove(Mirror(c, centre), Mirror(p, centre)) == PlusMove(c, p)
    ensures TrueRange(Mirror(c, centre), Mirror(p, centre)) == TrueRange(c, p)
  {
  }

  lemma MirrorSwapsSeries(candles: seq<Candle>, centre: real)
    ensures Pairwise(PlusMove, Mirrored(candles, centre)) == Pairwise(MinusMove, candles)
    ensures Pairwise(MinusMove, Mirrored(candles, centre)) == Pairwise(PlusMove, candles)
    ensures Pairwise(TrueRange, Mirrored(candles, centre)) == Pairwise(TrueRange, candles)
  {
    forall k | 0 <= k < |candles| - 1
      ensures PlusMove(Mirror(candles[k + 1], centre), Mirror(candles[k], centre)) == MinusMove(candles[k + 1], candles[k])
      ensures MinusMove(Mirror(candles[k + 1], centre), Mirror(candles[k], centre)) == PlusMove(candles[k + 1], candles[k])
      ensures TrueRange(Mirror(candles[k + 1], centre), Mirror(candles[k], centre))
           == TrueRange(candles[k + 1], candles[k]) {
      MirrorSwapsMoves(candles[k + 1], candles[k], centre);
    }
  }

  /** Turning the market upside down swaps +DI and -DI and leaves ADX alone. */
  lemma MirrorSwapsIndices(candles: seq<Candle>, period: nat, centre: real)
    requires 0 < period
    ensures period < |candles| ==>
      && DiSeries(PlusMove, Mirrored(candles, centre), period) == DiSeries(MinusMove, candles, period)
      && DiSeries(MinusMove, Mirrored(candles, centre), period) == DiSeries(PlusMove, candles, period)
    ensures Adx(Mirrored(candles, centre), period) == Adx(candles, period)
  {
    MirrorSwapsSeries(candles, centre);
    if period < |candles| {
      DxIsSymmetric(DiSeries(PlusMove, candles, period), DiSeries(MinusMove, candles, period));
    }
  }

  lemma DxIsSymmetric(xs: seq<real>, ys: seq<real>)
    requires |xs| == |ys|
    ensures ZipWith(Dx, xs, ys) == ZipWith(Dx, ys, xs)
  {
    forall k | 0 <= k < |xs| ensures Dx(xs[k], ys[k]) == Dx(ys[k], xs[k]) {
      assert xs[k] + ys[k] == ys[k] + xs[k] && Abs(xs[k] - ys[k]) == Abs(ys[k] - xs[k]);
    }
  }
}
