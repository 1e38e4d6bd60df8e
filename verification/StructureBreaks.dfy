// Swing points, and the automaton that turns closed candles into breaks of
// structure (BOS) and changes of character (CHoCH).
module StructureBreaks {
  import opened Market
  import opened Options
  import opened Rounding
  import opened Folds

  datatype Config = Config(swingLookback: nat, minBreakDistance: real, minBosBodyRatio: real, maxBos: nat, maxChoch: nat)

  /** One reported BOS or CHoCH: its direction, the broken price and the breaking bar. */
  datatype Signal = Signal(direction: Direction, price: real, bar: nat)

  datatype Kind = Bos | Choch

  /** An entry of the merged stream: the break of the swing at position `swing` of its list, at its exact level. */
  datatype Event = Event(kind: Kind, direction: Direction, level: real, bar: nat, swing: nat)

  /** What is reported of an event: its price is rounded to cents. */
  function Published(e: Event): Signal {
    Signal(e.direction, Round2(e.level), e.bar)
  }

  datatype Trend = Neutral | Bullish | Bearish

  /** The input of one pass: candles, their body ratios, and the bars of the swing highs and lows. */
  datatype Chart = Chart(candles: seq<Candle>, ratios: seq<real>, highs: seq<nat>, lows: seq<nat>, cfg: Config)

  function Ratios(candles: seq<Candle>): (ratios: seq<real>)
    ensures |ratios| == |candles|
    ensures forall i :: 0 <= i < |candles| ==> ratios[i] == BodyRatio(candles[i])
  {
    seq(|candles|, i requires 0 <= i < |candles| => BodyRatio(candles[i]))
  }

  function ChartOf(candles: seq<Candle>, highs: seq<nat>, lows: seq<nat>, cfg: Config): Chart {
    Chart(candles, Ratios(candles), highs, lows, cfg)
  }

  predicate Indexed(chart: Chart) {
    && |chart.ratios| == |chart.candles|
    && (forall h <- chart.highs :: h < |chart.candles|)
    && (forall l <- chart.lows :: l < |chart.candles|)
  }

  function Swings(chart: Chart, d: Direction): seq<nat> {
    if d.Buy? then chart.highs else chart.lows
  }

  function With(d: Direction): Trend {
    if d.Buy? then Bullish else Bearish
  }

  /** The price a break in direction `d` must clear. */
  function Level(chart: Chart, d: Direction, k: nat): real
    requires Indexed(chart) && k < |Swings(chart, d)|
  {
    var bar := Swings(chart, d)[k];
    assert bar in Swings(chart, d);
    if d.Buy? then chart.candles[bar].high else chart.candles[bar].low
  }

  /** How far the close of bar `i` lies beyond the level. */
  function BreakDistance(chart: Chart, d: Direction, k: nat, i: nat): real
    requires Indexed(chart) && k < |Swings(chart, d)| && i < |chart.candles|
  {
    if d.Buy? then chart.candles[i].close - Level(chart, d, k) else Level(chart, d, k) - chart.candles[i].close
  }

  function MinBody(cfg: Config, kind: Kind): real {
    if kind.Choch? then cfg.minBosBodyRatio * 0.8 else cfg.minBosBodyRatio
  }

  predicate Breaks(chart: Chart, d: Direction, k: nat, i: nat, kind: Kind)
    requires Indexed(chart) && k < |Swings(chart, d)| && i < |chart.candles|
  {
    && BreakDistance(chart, d, k, i) >= chart.cfg.minBreakDistance
    && chart.ratios[i] >= MinBody(chart.cfg, kind)
  }

  // ---------------------------------------------------------- swing points

  /** Bar `i` is strictly the highest of the window of `lookback` bars on each side. */
  predicate IsSwingHigh(candles: seq<Candle>, lookback: nat, i: nat) {
    && lookback <= i && i + lookback < |candles|
    && forall k :: i - lookback <= k <= i + lookback && k != i ==> candles[k].high < candles[i].high
  }

  predicate IsSwingLow(candles: seq<Candle>, lookback: nat, i: nat) {
    && lookback <= i && i + lookback < |candles|
    && forall k :: i - lookback <= k <= i + lookback && k != i ==> candles[i].low < candles[k].low
  }

  /** Swing points of one kind are more than the lookback apart, and equal extremes make none. */
  lemma SwingsStandApart(candles: seq<Candle>, lookback: nat, i: nat, j: nat)
    requires i < j
    ensures IsSwingHigh(candles, lookback, i) && IsSwingHigh(candles, lookback, j) ==> i + lookback < j
    ensures IsSwingLow(candles, lookback, i) && IsSwingLow(candles, lookback, j) ==> i + lookback < j
  {
    if j <= i + lookback {
      assert IsSwingHigh(candles, lookback, i) ==> candles[j].high < candles[i].high;
      assert IsSwingLow(candles, lookback, i) ==> candles[i].low < candles[j].low;
    }
  }

  predicate Increasing(s: seq<nat>) {
    forall i, j :: 0 <= i < j < |s| ==> s[i] < s[j]
  }

  method DetectSwingHighs(candles: seq<Candle>, lookback: nat) returns (swings: seq<nat>)
    ensures Increasing(swings)
    ensures forall i: nat :: i in swings <==> IsSwingHigh(candles, lookback, i)
  {
    swings := [];
    var i := lookback;
    while i < |candles| - lookback
      invariant lookback <= i
      invariant Increasing(swings) && forall j :: 0 <= j < |swings| ==> swings[j] < i
      invariant forall k: nat :: k in swings <==> k < i && IsSwingHigh(candles, lookback, k)
    {
      var h := candles[i].high;
      var j := 1;
      while j <= lookback && candles[i - j].high < h && candles[i + j].high < h
        invariant 1 <= j <= lookback + 1
        invariant forall k :: i - j < k < i + j && k != i ==> candles[k].high < h
      {
        j := j + 1;
      }
      if j > lookback {
        swings := swings + [i];
      }
      i := i + 1;
    }
  }

  method DetectSwingLows(candles: seq<Candle>, lookback: nat) returns (swings: seq<nat>)
    ensures Increasing(swings)
    ensures forall i: nat :: i in swings <==> IsSwingLow(candles, lookback, i)
  {
    swings := [];
    var i := lookback;
    while i < |candles| - lookback
      invariant lookback <= i
      invariant Increasing(swings) && forall j :: 0 <= j < |swings| ==> swings[j] < i
      invariant forall k: nat :: k in swings <==> k < i && IsSwingLow(candles, lookback, k)
    {
      var lo := candles[i].low;
      var j := 1;
      while j <= lookback && candles[i - j].low > lo && candles[i + j].low > lo
        invariant 1 <= j <= lookback + 1
        invariant forall k :: i - j < k < i + j && k != i ==> lo < candles[k].low
      {
        j := j + 1;
      }
      if j > lookback {
        swings := swings + [i];
      }
      i := i + 1;
    }
  }

  // ------------------------------------------------- the automaton, as a step

  datatype State = State(events: seq<Event>, usedHighs: set<nat>, usedLows: set<nat>, trend: Trend, recent: seq<Direction>)

  const START := State([], {}, {}, Neutral, [])

  function Used(s: State, d: Direction): set<nat> {
    if d.Buy? then s.usedHighs else s.usedLows
  }

  function Consume(s: State, d: Direction, k: nat): State {
    if d.Buy? then s.(usedHighs := s.usedHighs + {k}) else s.(usedLows := s.usedLows + {k})
  }

  /** The latest of the first `n` swings that lies before bar `i` and is not used. */
  function Newest(swings: seq<nat>, used: set<nat>, i: nat, n: nat): (pos: Option<nat>)
    requires n <= |swings|
    ensures pos.Some? ==> pos.value < n
  {
    if n == 0 then None
    else if swings[n - 1] < i && n - 1 !in used then Some(n - 1)
    else Newest(swings, used, i, n - 1)
  }

  lemma {:induction false} NewestIs(swings: seq<nat>, used: set<nat>, i: nat, n: nat)
    requires n <= |swings|
    ensures var pos := Newest(swings, used, i, n);
      && (pos.Some? ==> swings[pos.value] < i && pos.value !in used)
      && (forall k :: (if pos.Some? then pos.value < k else 0 <= k) && k < n ==> i <= swings[k] || k in used)
  {
    if n > 0 && !(swings[n - 1] < i && n - 1 !in used) {
      NewestIs(swings, used, i, n - 1);
    }
  }

  predicate LastTwo(recent: seq<Direction>, d: Direction) {
    |recent| >= 2 && recent[|recent| - 1] == d && recent[|recent| - 2] == d
  }

  function KindOf(trend: Trend, d: Direction): Kind {
    if trend == With(Opposite(d)) then Choch else Bos
  }

  function Record(s: State, chart: Chart, d: Direction, k: nat, i: nat): State
    requires Indexed(chart) && k < |Swings(chart, d)|
  {
    var kind := KindOf(s.trend, d);
    var event := Event(kind, d, Level(chart, d, k), i, k);
    var recent := if kind.Choch? then [] else s.recent + [d];
    var trend := if kind.Choch? then Neutral else if LastTwo(recent, d) then With(d) else s.trend;
    Consume(s, d, k).(events := s.events + [event], trend := trend, recent := recent)
  }

  predicate Fires(s: State, chart: Chart, d: Direction, i: nat)
    requires Indexed(chart) && i < |chart.candles|
  {
    var pos := Newest(Swings(chart, d), Used(s, d), i, |Swings(chart, d)|);
    pos.Some? && Breaks(chart, d, pos.value, i, KindOf(s.trend, d))
  }

  function Fire(s: State, chart: Chart, d: Direction, i: nat): State
    requires Indexed(chart) && i < |chart.candles| && Fires(s, chart, d, i)
  {
    Record(s, chart, d, Newest(Swings(chart, d), Used(s, d), i, |Swings(chart, d)|).value, i)
  }

  function Step(s: State, chart: Chart, i: nat): State
    requires Indexed(chart) && i < |chart.candles|
  {
    if Fires(s, chart, Buy, i) then Fire(s, chart, Buy, i)
    else if Fires(s, chart, Sell, i) then Fire(s, chart, Sell, i)
    else s
  }

  function StepOf(chart: Chart): (State, nat) -> State
    requires Indexed(chart)
  {
    (s: State, i: nat) => if i < |chart.candles| then Step(s, chart, i) else s
  }

  /** The state before bar `n`; the first `swingLookback` bars are skipped. */
  function Before(chart: Chart, n: nat): State
    requires Indexed(chart)
  {
    Fold(StepOf(chart), START, chart.cfg.swingLookback, n)
  }

  function Signals(events: seq<Event>, kind: Kind): seq<Signal> {
    if events == [] then []
    else
      var e := events[|events| - 1];
      Signals(events[..|events| - 1], kind) + if e.kind == kind then [Published(e)] else []
  }

  /** The suffix `s[-n:]`: all of `s` when `n` is zero. */
  function LastFew(s: seq<Signal>, n: nat): seq<Signal> {
    if n == 0 || |s| <= n then s else s[|s| - n..]
  }

  // --------------------------------------------------------------- the method

  method NewestUnbroken(swings: seq<nat>, used: set<nat>, i: nat) returns (pos: Option<nat>)
    ensures pos == Newest(swings, used, i, |swings|)
  {
    var k := |swings|;
    while k > 0
      invariant 0 <= k <= |swings|
      invariant Newest(swings, used, i, |swings|) == Newest(swings, used, i, k)
    {
      k := k - 1;
      if swings[k] < i && k !in used {
        return Some(k);
      }
    }
    pos := None;
  }

  lemma SignalsAppend(events: seq<Event>, e: Event)
    ensures Signals(events + [e], Bos) == Signals(events, Bos) + if e.kind.Bos? then [Published(e)] else []
    ensures Signals(events + [e], Choch) == Signals(events, Choch) + if e.kind.Choch? then [Published(e)] else []
  {
    assert (events + [e])[..|events|] == events;
  }

  /** Report the break of swing `k` at price `price`, keeping both lists in step with the spec state. */
  method Register(bos: seq<Signal>, choch: seq<Signal>, trend: Trend, recent: seq<Direction>,
                  d: Direction, price: real, i: nat, ghost s: State, ghost chart: Chart, ghost k: nat)
    returns (bos': seq<Signal>, choch': seq<Signal>, trend': Trend, recent': seq<Direction>)
    requires Indexed(chart) && k < |Swings(chart, d)| && price == Level(chart, d, k)
    requires s.trend == trend && s.recent == recent
    requires bos == Signals(s.events, Bos) && choch == Signals(s.events, Choch)
    ensures var next := Record(s, chart, d, k, i);
      && bos' == Signals(next.events, Bos) && choch' == Signals(next.events, Choch)
      && trend' == next.trend && recent' == next.recent
  {
    SignalsAppend(s.events, Event(KindOf(s.trend, d), d, price, i, k));
    bos', choch', trend', recent' := bos, choch, trend, recent;
    if trend == With(Opposite(d)) {
      choch', trend', recent' := choch + [Signal(d, Round2(price), i)], Neutral, [];
    } else {
      bos', recent' := bos + [Signal(d, Round2(price), i)], recent + [d];
      if |recent'| >= 2 && recent'[|recent'| - 1] == recent'[|recent'| - 2] == d {
        trend' := With(d);
      }
    }
  }

  /** One of the pass's two mirrored blocks: try the swing at `pos`, report it if bar `i` breaks it. */
  method TryBreak(bos: seq<Signal>, choch: seq<Signal>, trend: Trend, recent: seq<Direction>,
                  d: Direction, pos: Option<nat>, i: nat, chart: Chart, ghost s: State)
    returns (broke: bool, bos': seq<Signal>, choch': seq<Signal>, trend': Trend, recent': seq<Direction>)
    requires Indexed(chart) && i < |chart.candles|
    requires pos == Newest(Swings(chart, d), Used(s, d), i, |Swings(chart, d)|)
    requires s.trend == trend && s.recent == recent
    requires bos == Signals(s.events, Bos) && choch == Signals(s.events, Choch)
    ensures broke <==> Fires(s, chart, d, i)
    ensures var next := if Fires(s, chart, d, i) then Fire(s, chart, d, i) else s;
      && bos' == Signals(next.events, Bos) && choch' == Signals(next.events, Choch)
      && trend' == next.trend && recent' == next.recent
  {
    broke, bos', choch', trend', recent' := false, bos, choch, trend, recent;
    if pos.Some? {
      var price, close := Level(chart, d, pos.value), chart.candles[i].close;
      var distance := if d.Buy? then close - price else price - close;
      var minBody := if trend == With(Opposite(d)) then chart.cfg.minBosBodyRatio * 0.8 else chart.cfg.minBosBodyRatio;
      assert Breaks(chart, d, pos.value, i, KindOf(trend, d))
        <==> distance >= chart.cfg.minBreakDistance && chart.ratios[i] >= minBody;
      if distance >= chart.cfg.minBreakDistance && chart.ratios[i] >= minBody {
        bos', choch', trend', recent' := Register(bos, choch, trend, recent, d, price, i, s, chart, pos.value);
        broke := true;
      }
    }
  }

  /** The executable variables agree with the spec state. */
  ghost predicate Represents(s: State, bos: seq<Signal>, choch: seq<Signal>, usedHighs: set<nat>, usedLows: set<nat>,
                             trend: Trend, recent: seq<Direction>) {
    && s.usedHighs == usedHighs && s.usedLows == usedLows && s.trend == trend && s.recent == recent
    && bos == Signals(s.events, Bos) && choch == Signals(s.events, Choch)
  }

  /** One bar of the pass: the bullish break is tried first, the bearish one only if it did not fire. */
  method ScanBar(chart: Chart, i: nat, bos: seq<Signal>, choch: seq<Signal>, usedHighs: set<nat>, usedLows: set<nat>,
                 trend: Trend, recent: seq<Direction>, ghost s: State)
    returns (bos': seq<Signal>, choch': seq<Signal>, usedHighs': set<nat>, usedLows': set<nat>,
             trend': Trend, recent': seq<Direction>)
    requires Indexed(chart) && i < |chart.candles|
    requires Represents(s, bos, choch, usedHighs, usedLows, trend, recent)
    ensures Represents(Step(s, chart, i), bos', choch', usedHighs', usedLows', trend', recent')
  {
    var high := NewestUnbroken(chart.highs, usedHighs, i);
    var low := NewestUnbroken(chart.lows, usedLows, i);
    var broke;
    usedHighs', usedLows' := usedHighs, usedLows;
    broke, bos', choch', trend', recent' := TryBreak(bos, choch, trend, recent, Buy, high, i, chart, s);
    if broke {
      usedHighs' := usedHighs + {high.value};
    } else {
      broke, bos', choch', trend', recent' := TryBreak(bos, choch, trend, recent, Sell, low, i, chart, s);
      if broke {
        usedLows' := usedLows + {low.value};
      }
    }
  }

  method DetectBosAndChoch(candles: seq<Candle>, highs: seq<nat>, lows: seq<nat>, cfg: Config)
    returns (bos: seq<Signal>, choch: seq<Signal>, trend: Trend)
    requires Indexed(ChartOf(candles, highs, lows, cfg))
    ensures var end := Before(ChartOf(candles, highs, lows, cfg), |candles|);
      && bos == LastFew(Signals(end.events, Bos), cfg.maxBos)
      && choch == LastFew(Signals(end.events, Choch), cfg.maxChoch)
      && trend == end.trend
  {
    bos, choch, trend := RunPass(ChartOf(candles, highs, lows, cfg));
    bos, choch := LastFew(bos, cfg.maxBos), LastFew(choch, cfg.maxChoch);
  }

  method RunPass(chart: Chart) returns (bos: seq<Signal>, choch: seq<Signal>, trend: Trend)
    requires Indexed(chart)
    ensures var end := Before(chart, |chart.candles|);
      bos == Signals(end.events, Bos) && choch == Signals(end.events, Choch) && trend == end.trend
  {
    bos, choch, trend := [], [], Neutral;
    var usedHighs: set<nat>, usedLows: set<nat> := {}, {};
    var recent: seq<Direction> := [];
    if chart.cfg.swingLookback > |chart.candles| {
      return;
    }
    ghost var s := START;
    for i := chart.cfg.swingLookback to |chart.candles|
      invariant s == Before(chart, i)
      invariant Represents(s, bos, choch, usedHighs, usedLows, trend, recent)
    {
      bos, choch, usedHighs, usedLows, trend, recent :=
        ScanBar(chart, i, bos, choch, usedHighs, usedLows, trend, recent, s);
      s := Step(s, chart, i);
    }
  }

  // ------------------------------------------------------------ properties

  ghost predicate BrokenIn(events: seq<Event>, d: Direction, k: nat) {
    exists e <- events :: e.direction == d && e.swing == k
  }

  /** The last two events are both BOS in direction `d`. */
  predicate TwoBos(events: seq<Event>, d: Direction) {
    var n := |events|;
    n >= 2 && IsBos(events[n - 1], d) && IsBos(events[n - 2], d)
  }

  predicate IsBos(e: Event, d: Direction) {
    e.kind == Bos && e.direction == d
  }

  predicate EndsWithBos(events: seq<Event>, d: Direction) {
    events != [] && IsBos(events[|events| - 1], d)
  }

  /** `e` breaks a swing at an earlier bar by the minimum distance, on a bar with enough body. */
  predicate Genuine(e: Event, chart: Chart)
    requires Indexed(chart)
  {
    var d, i := e.direction, e.bar;
    && chart.cfg.swingLookback <= i < |chart.candles|
    && e.swing < |Swings(chart, d)| && Swings(chart, d)[e.swing] < i
    && e.level == Level(chart, d, e.swing)
    && Breaks(chart, d, e.swing, i, e.kind)
  }

  /** Swing `k` precedes bar `i`, no event of `prev` broke it, and every later such swing is broken. */
  ghost predicate NewestIntact(prev: seq<Event>, chart: Chart, d: Direction, k: nat, i: nat) {
    && k < |Swings(chart, d)| && Swings(chart, d)[k] < i && !BrokenIn(prev, d, k)
    && forall j: nat :: k < j < |Swings(chart, d)| && Swings(chart, d)[j] < i ==> BrokenIn(prev, d, j)
  }

  /** What makes `e` a legal next event after `prev`. */
  ghost predicate Lawful(prev: seq<Event>, e: Event, chart: Chart)
    requires Indexed(chart)
  {
    var d := e.direction;
    && Genuine(e, chart)
    && (prev != [] ==> prev[|prev| - 1].bar < e.bar)
    && NewestIntact(prev, chart, d, e.swing, e.bar)
    && (e.kind == Choch <==> TwoBos(prev, Opposite(d)))
  }

  /** Every event satisfies `ok` together with the events before it. */
  ghost predicate Chain(events: seq<Event>, ok: (seq<Event>, Event) -> bool) {
    events == [] || (var n := |events| - 1; Chain(events[..n], ok) && ok(events[..n], events[n]))
  }

  ghost function Rule(chart: Chart): (seq<Event>, Event) -> bool
    requires Indexed(chart)
  {
    (prev, e) => Lawful(prev, e, chart)
  }

  predicate InOrder(events: seq<Event>) {
    forall i, j :: 0 <= i < j < |events| ==> events[i].bar < events[j].bar
  }

  predicate EndsBefore(events: seq<Event>, n: nat) {
    events != [] ==> events[|events| - 1].bar < n
  }

  /** The used sets hold exactly the swings the events broke. */
  ghost predicate UsedAgree(s: State) {
    forall d: Direction, k: nat :: k in Used(s, d) <==> BrokenIn(s.events, d, k)
  }

  /** The trend and the recent directions follow from the last two events. */
  ghost predicate TrendAgrees(s: State) {
    && (forall d: Direction :: s.trend == With(d) <==> TwoBos(s.events, d))
    && (forall d: Direction :: LastTwo(s.recent, d) <==> TwoBos(s.events, d))
    && (forall d: Direction :: EndsWithBos(s.events, d) <==> s.recent != [] && s.recent[|s.recent| - 1] == d)
  }

  ghost predicate Coherent(s: State) {
    UsedAgree(s) && TrendAgrees(s)
  }

  ghost predicate Sound(s: State, chart: Chart, n: nat)
    requires Indexed(chart)
  {
    Chain(s.events, Rule(chart)) && InOrder(s.events) && EndsBefore(s.events, n) && Coherent(s)
  }

  lemma NewestIsIntact(s: State, chart: Chart, d: Direction, i: nat)
    requires Indexed(chart) && Coherent(s)
    ensures var pos := Newest(Swings(chart, d), Used(s, d), i, |Swings(chart, d)|);
      && (pos.Some? ==> NewestIntact(s.events, chart, d, pos.value, i))
      && (pos.None? ==> forall k: nat :: !NewestIntact(s.events, chart, d, k, i))
  {
    NewestIs(Swings(chart, d), Used(s, d), i, |Swings(chart, d)|);
  }

  lemma AppendBroken(events: seq<Event>, e: Event)
    ensures forall d: Direction, k: nat ::
      BrokenIn(events + [e], d, k) <==> BrokenIn(events, d, k) || (e.direction == d && e.swing == k)
  {
    assert e in events + [e];
    assert forall x :: x in events + [e] <==> x in events || x == e;
  }

  lemma RecordKeepsUsed(s: State, chart: Chart, d: Direction, k: nat, i: nat)
    requires Indexed(chart) && k < |Swings(chart, d)| && UsedAgree(s)
    ensures UsedAgree(Record(s, chart, d, k, i))
  {
    AppendBroken(s.events, Record(s, chart, d, k, i).events[|s.events|]);
  }

  lemma RecordKeepsTrend(s: State, chart: Chart, d: Direction, k: nat, i: nat)
    requires Indexed(chart) && k < |Swings(chart, d)| && TrendAgrees(s)
    ensures TrendAgrees(Record(s, chart, d, k, i))
  {
    var next := Record(s, chart, d, k, i);
    var e := next.events[|s.events|];
    assert forall x: Direction :: TwoBos(next.events, x) <==> IsBos(e, x) && EndsWithBos(s.events, x);
    assert forall x: Direction :: EndsWithBos(next.events, x) <==> IsBos(e, x);
  }

  lemma ChainAppend(events: seq<Event>, e: Event, ok: (seq<Event>, Event) -> bool)
    requires Chain(events, ok) && ok(events, e)
    ensures Chain(events + [e], ok)
  {
    assert (events + [e])[..|events|] == events;
  }

  lemma FireIsLawful(s: State, chart: Chart, d: Direction, i: nat)
    requires Indexed(chart) && chart.cfg.swingLookback <= i < |chart.candles|
    requires EndsBefore(s.events, i) && Coherent(s) && Fires(s, chart, d, i)
    ensures Lawful(s.events, Fire(s, chart, d, i).events[|s.events|], chart)
  {
    NewestIsIntact(s, chart, d, i);
  }

  lemma FireKeepsSound(s: State, chart: Chart, d: Direction, i: nat)
    requires Indexed(chart) && chart.cfg.swingLookback <= i < |chart.candles|
    requires Sound(s, chart, i) && Fires(s, chart, d, i)
    ensures Sound(Fire(s, chart, d, i), chart, i + 1)
  {
    var k := Newest(Swings(chart, d), Used(s, d), i, |Swings(chart, d)|).value;
    var e := Record(s, chart, d, k, i).events[|s.events|];
    FireIsLawful(s, chart, d, i);
    ChainAppend(s.events, e, Rule(chart));
    OrderAppend(s.events, e);
    RecordKeepsUsed(s, chart, d, k, i);
    RecordKeepsTrend(s, chart, d, k, i);
  }

  lemma OrderAppend(events: seq<Event>, e: Event)
    requires InOrder(events) && EndsBefore(events, e.bar)
    ensures InOrder(events + [e]) && EndsBefore(events + [e], e.bar + 1)
  {
  }

  lemma BeforeIsSound(chart: Chart, n: nat)
    requires Indexed(chart) && n <= |chart.candles|
    ensures Sound(Before(chart, n), chart, n)
  {
    if n > chart.cfg.swingLookback {
      var inv := (s: State, i: nat) => Sound(s, chart, i);
      forall s, i: nat | chart.cfg.swingLookback <= i < n && inv(s, i) ensures inv(StepOf(chart)(s, i), i + 1) {
        StepKeepsSound(s, chart, i);
      }
      FoldInduction(StepOf(chart), START, chart.cfg.swingLookback, inv, chart.cfg.swingLookback, n);
      assert inv(Before(chart, n), n);
    }
  }

  lemma StepKeepsSound(s: State, chart: Chart, i: nat)
    requires Indexed(chart) && chart.cfg.swingLookback <= i < |chart.candles| && Sound(s, chart, i)
    ensures Sound(Step(s, chart, i), chart, i + 1)
  {
    if Fires(s, chart, Buy, i) {
      FireKeepsSound(s, chart, Buy, i);
    } else if Fires(s, chart, Sell, i) {
      FireKeepsSound(s, chart, Sell, i);
    }
  }

  lemma EventsInOrder(chart: Chart, n: nat)
    requires Indexed(chart) && n <= |chart.candles|
    ensures InOrder(Before(chart, n).events) && EndsBefore(Before(chart, n).events, n)
  {
    BeforeIsSound(chart, n);
  }

  /** All events the pass reports, before the lists are cut to their last few. */
  function Report(chart: Chart): seq<Event>
    requires Indexed(chart)
  {
    Before(chart, |chart.candles|).events
  }

  /** Every event is lawful after those before it; the final trend is the direction of the last two BOS. */
  lemma EveryEventIsLawful(chart: Chart, j: nat)
    requires Indexed(chart) && j < |Report(chart)|
    ensures Lawful(Report(chart)[..j], Report(chart)[j], chart)
    ensures forall d :: Before(chart, |chart.candles|).trend == With(d) <==> TwoBos(Report(chart), d)
  {
    BeforeIsSound(chart, |chart.candles|);
    ChainAt(Report(chart), Rule(chart), j);
  }

  lemma {:induction false} ChainAt(events: seq<Event>, ok: (seq<Event>, Event) -> bool, j: nat)
    requires Chain(events, ok) && j < |events|
    ensures ok(events[..j], events[j])
    decreases |events|
  {
    var n := |events| - 1;
    if j < n {
      ChainAt(events[..n], ok, j);
      assert events[..n][..j] == events[..j];
    }
  }

  /** At most one event per bar, in strictly increasing bar order, and no swing is broken twice. */
  lemma OneEventPerBar(chart: Chart, j: nat, k: nat)
    requires Indexed(chart) && j < k < |Report(chart)|
    ensures Report(chart)[j].bar < Report(chart)[k].bar
    ensures Report(chart)[j].direction != Report(chart)[k].direction
         || Report(chart)[j].swing != Report(chart)[k].swing
  {
    var events := Report(chart);
    EventsInOrder(chart, |chart.candles|);
    EveryEventIsLawful(chart, k);
    assert events[..k][j] == events[j] && events[j] in events[..k];
  }

  // ------------------------------- nothing is missed, nothing looks ahead

  /** The events of an ascending stream on bars before `i`. */
  function Until(events: seq<Event>, i: nat): (prev: seq<Event>)
    ensures prev <= events
  {
    if events == [] || events[|events| - 1].bar < i then events else Until(events[..|events| - 1], i)
  }

  /** Bar `i` breaks the newest swing that `prev` left intact. */
  ghost predicate BreaksNewest(prev: seq<Event>, chart: Chart, d: Direction, i: nat)
    requires Indexed(chart) && i < |chart.candles|
  {
    exists k: nat :: NewestIntact(prev, chart, d, k, i)
                  && Breaks(chart, d, k, i, if TwoBos(prev, Opposite(d)) then Choch else Bos)
  }

  lemma FiresIff(s: State, chart: Chart, d: Direction, i: nat)
    requires Indexed(chart) && i < |chart.candles| && Coherent(s)
    ensures Fires(s, chart, d, i) <==> BreaksNewest(s.events, chart, d, i)
  {
    NewestIsIntact(s, chart, d, i);
    var pos := Newest(Swings(chart, d), Used(s, d), i, |Swings(chart, d)|);
    assert KindOf(s.trend, d) == if TwoBos(s.events, Opposite(d)) then Choch else Bos;
    if k: nat :| NewestIntact(s.events, chart, d, k, i) {
      assert pos.value == k;
    }
  }

  lemma StepAppends(s: State, chart: Chart, i: nat)
    requires Indexed(chart) && i < |chart.candles|
    ensures var next := Step(s, chart, i).events;
      if Fires(s, chart, Buy, i) || Fires(s, chart, Sell, i) then
        && |next| == |s.events| + 1 && next[..|s.events|] == s.events
        && next[|s.events|].bar == i
        && next[|s.events|].direction == (if Fires(s, chart, Buy, i) then Buy else Sell)
      else next == s.events
  {
    if Fires(s, chart, Buy, i) {
      assert Fire(s, chart, Buy, i).events[..|s.events|] == s.events;
    } else if Fires(s, chart, Sell, i) {
      assert Fire(s, chart, Sell, i).events[..|s.events|] == s.events;
    }
  }

  lemma UntilIgnoresLater(events: seq<Event>, next: seq<Event>, i: nat)
    requires next == events
          || (|next| == |events| + 1 && next[..|events|] == events && next[|events|].bar >= i)
    ensures Until(next, i) == Until(events, i)
  {
  }

  lemma UntilStep(s: State, chart: Chart, n: nat, i: nat)
    requires Indexed(chart) && i <= n < |chart.candles|
    ensures Until(Step(s, chart, n).events, i) == Until(s.events, i)
  {
    StepAppends(s, chart, n);
    UntilIgnoresLater(s.events, Step(s, chart, n).events, i);
  }

  lemma UntilIsBefore(chart: Chart, n: nat, i: nat)
    requires Indexed(chart) && chart.cfg.swingLookback <= i <= n <= |chart.candles|
    ensures Until(Before(chart, n).events, i) == Before(chart, i).events
  {
    var prev := Before(chart, i).events;
    var inv := (s: State, k: nat) => Until(s.events, i) == prev;
    forall s, k: nat | i <= k < n && inv(s, k) ensures inv(StepOf(chart)(s, k), k + 1) {
      UntilStep(s, chart, k, i);
    }
    EventsInOrder(chart, i);
    FoldInduction(StepOf(chart), START, chart.cfg.swingLookback, inv, i, n);
    assert inv(Before(chart, n), n);
  }

  lemma EventsAtStep(s: State, chart: Chart, i: nat)
    requires Indexed(chart) && i < |chart.candles| && forall e <- s.events :: e.bar < i
    ensures EventAt(Step(s, chart, i).events, Buy, i) <==> Fires(s, chart, Buy, i)
    ensures EventAt(Step(s, chart, i).events, Sell, i) <==> Fires(s, chart, Sell, i) && !Fires(s, chart, Buy, i)
  {
    StepAppends(s, chart, i);
    var next := Step(s, chart, i).events;
    if next != s.events {
      var last := next[|s.events|];
      assert next == next[..|s.events|] + [last] && last in next;
    }
  }

  /**
   * The report is complete: a bar carries a bullish event exactly when it breaks
   * the newest intact swing high, and a bearish one exactly when it breaks the
   * newest intact swing low and is not already bullish.
   */
  lemma EveryBreakIsReported(chart: Chart, i: nat)
    requires Indexed(chart) && chart.cfg.swingLookback <= i < |chart.candles|
    ensures var events, prev := Report(chart), Until(Report(chart), i);
      && (EventAt(events, Buy, i) <==> BreaksNewest(prev, chart, Buy, i))
      && (EventAt(events, Sell, i) <==> BreaksNewest(prev, chart, Sell, i) && !BreaksNewest(prev, chart, Buy, i))
  {
    var s := Before(chart, i);
    assert Until(Report(chart), i) == s.events by {
      UntilIsBefore(chart, |chart.candles|, i);
    }
    ReportedAtBar(chart, i);
    assert Coherent(s) by {
      BeforeIsSound(chart, i);
    }
    FiresIff(s, chart, Buy, i);
    FiresIff(s, chart, Sell, i);
  }

  // --------------------------------------------------- breaks in prices

  /**
   * Candle `c` closes the minimum distance beyond `level` with the asked share of its
   * range as body; a change of character asks for four fifths of it.
   */
  predicate Clears(c: Candle, d: Direction, level: real, cfg: Config, kind: Kind) {
    var asked := if kind.Choch? then 0.8 * cfg.minBosBodyRatio else cfg.minBosBodyRatio;
    && (if d.Buy? then c.close >= level + cfg.minBreakDistance else c.close <= level - cfg.minBreakDistance)
    && (if c.high > c.low then Abs(c.close - c.open) >= asked * (c.high - c.low) else 0.0 >= asked)
  }

  /** The high of a swing high, the low of a swing low. */
  function SwingPrice(candles: seq<Candle>, highs: seq<nat>, lows: seq<nat>, d: Direction, k: nat): real
    requires forall h <- highs :: h < |candles|
    requires forall l <- lows :: l < |candles|
    requires k < |if d.Buy? then highs else lows|
  {
    if d.Buy? then assert highs[k] in highs; candles[highs[k]].high
    else assert lows[k] in lows; candles[lows[k]].low
  }

  lemma BreaksIffClears(candles: seq<Candle>, highs: seq<nat>, lows: seq<nat>, cfg: Config,
                        d: Direction, k: nat, i: nat, kind: Kind)
    requires Indexed(ChartOf(candles, highs, lows, cfg)) && k < |if d.Buy? then highs else lows| && i < |candles|
    ensures var chart := ChartOf(candles, highs, lows, cfg);
      && Level(chart, d, k) == SwingPrice(candles, highs, lows, d, k)
      && (Breaks(chart, d, k, i, kind) <==> Clears(candles[i], d, SwingPrice(candles, highs, lows, d, k), cfg, kind))
  {
    BodyShareIff(candles[i], MinBody(cfg, kind));
  }

  lemma BodyShareIff(c: Candle, asked: real)
    ensures BodyRatio(c) >= asked
       <==> if c.high > c.low then Abs(c.close - c.open) >= asked * (c.high - c.low) else 0.0 >= asked
  {
    if c.high > c.low {
      var q, range := BodyRatio(c), c.high - c.low;
      assert q * range == Abs(c.close - c.open);
      assert (q - asked) * range == q * range - asked * range;
      if q >= asked {
        assert (q - asked) * range >= 0.0;
      } else {
        assert (asked - q) * range > 0.0;
      }
    }
  }

  /**
   * In prices: every event reports the swing's own price, and its bar closes beyond that
   * price, upward for a bullish event and downward for a bearish one; the final trend is
   * bullish or bearish as the last two events are both BOS upward or downward.
   */
  lemma EventsInPrices(candles: seq<Candle>, highs: seq<nat>, lows: seq<nat>, cfg: Config, j: nat)
    requires Indexed(ChartOf(candles, highs, lows, cfg)) && j < |Report(ChartOf(candles, highs, lows, cfg))|
    ensures var chart := ChartOf(candles, highs, lows, cfg);
      var e, trend := Report(chart)[j], Before(chart, |candles|).trend;
      && e.bar < |candles| && e.swing < (if e.direction.Buy? then |highs| else |lows|)
      && (if e.direction.Buy? then highs[e.swing] else lows[e.swing]) < e.bar
      && e.level == SwingPrice(candles, highs, lows, e.direction, e.swing)
      && Clears(candles[e.bar], e.direction, e.level, cfg, e.kind)
      && (trend == Bullish <==> TwoBos(Report(chart), Buy)) && (trend == Bearish <==> TwoBos(Report(chart), Sell))
  {
    var chart := ChartOf(candles, highs, lows, cfg);
    var e := Report(chart)[j];
    EveryEventIsLawful(chart, j);
    BreaksIffClears(candles, highs, lows, cfg, e.direction, e.swing, e.bar, e.kind);
    assert With(Buy) == Bullish && With(Sell) == Bearish;
  }

  /** Bar `i` clears the newest swing of its side that no earlier event broke. */
  ghost predicate ClearsNewest(candles: seq<Candle>, highs: seq<nat>, lows: seq<nat>, cfg: Config,
                               prev: seq<Event>, d: Direction, i: nat)
    requires Indexed(ChartOf(candles, highs, lows, cfg)) && i < |candles|
  {
    exists k: nat ::
      && NewestIntact(prev, ChartOf(candles, highs, lows, cfg), d, k, i)
      && Clears(candles[i], d, SwingPrice(candles, highs, lows, d, k), cfg,
                if TwoBos(prev, Opposite(d)) then Choch else Bos)
  }

  /** In prices: a bar carries an event exactly when it clears the newest intact swing, upward before downward. */
  lemma BreaksInPricesAreReported(candles: seq<Candle>, highs: seq<nat>, lows: seq<nat>, cfg: Config, i: nat)
    requires Indexed(ChartOf(candles, highs, lows, cfg)) && cfg.swingLookback <= i < |candles|
    ensures var events := Report(ChartOf(candles, highs, lows, cfg));
      var prev := Until(events, i);
      && (EventAt(events, Buy, i) <==> ClearsNewest(candles, highs, lows, cfg, prev, Buy, i))
      && (EventAt(events, Sell, i) <==> ClearsNewest(candles, highs, lows, cfg, prev, Sell, i)
                                        && !ClearsNewest(candles, highs, lows, cfg, prev, Buy, i))
  {
    var chart := ChartOf(candles, highs, lows, cfg);
    EveryBreakIsReported(chart, i);
    NewestInPrices(candles, highs, lows, cfg, Until(Report(chart), i), Buy, i);
    NewestInPrices(candles, highs, lows, cfg, Until(Report(chart), i), Sell, i);
  }

  lemma NewestInPrices(candles: seq<Candle>, highs: seq<nat>, lows: seq<nat>, cfg: Config,
                       prev: seq<Event>, d: Direction, i: nat)
    requires Indexed(ChartOf(candles, highs, lows, cfg)) && i < |candles|
    ensures BreaksNewest(prev, ChartOf(candles, highs, lows, cfg), d, i)
       <==> ClearsNewest(candles, highs, lows, cfg, prev, d, i)
  {
    var chart, kind := ChartOf(candles, highs, lows, cfg), if TwoBos(prev, Opposite(d)) then Choch else Bos;
    forall k: nat | NewestIntact(prev, chart, d, k, i)
      ensures Breaks(chart, d, k, i, kind) <==> Clears(candles[i], d, SwingPrice(candles, highs, lows, d, k), cfg, kind) {
      BreaksIffClears(candles, highs, lows, cfg, d, k, i, kind);
    }
  }

  /** The report carries at bar `i` what the automaton fires there. */
  lemma ReportedAtBar(chart: Chart, i: nat)
    requires Indexed(chart) && chart.cfg.swingLookback <= i < |chart.candles|
    ensures var s := Before(chart, i);
      && (EventAt(Report(chart), Buy, i) <==> Fires(s, chart, Buy, i))
      && (EventAt(Report(chart), Sell, i) <==> Fires(s, chart, Sell, i) && !Fires(s, chart, Buy, i))
  {
    var events, s := Report(chart), Before(chart, i);
    var next := Step(s, chart, i).events;
    ReportedByBar(chart, i + 1);
    assert Before(chart, i + 1).events == next;
    SameEventsAt(events, next, i);
    EventsBefore(chart, i);
    EventsAtStep(s, chart, i);
  }

  lemma ReportedByBar(chart: Chart, n: nat)
    requires Indexed(chart) && chart.cfg.swingLookback <= n <= |chart.candles|
    ensures forall e :: e in Before(chart, n).events <==> e in Report(chart) && e.bar < n
  {
    EventsInOrder(chart, |chart.candles|);
    UntilIsBefore(chart, |chart.candles|, n);
    EventsUntil(Report(chart), n);
  }

  lemma EventsBefore(chart: Chart, i: nat)
    requires Indexed(chart) && i <= |chart.candles|
    ensures forall e <- Before(chart, i).events :: e.bar < i
  {
    EventsInOrder(chart, i);
    EventsUntil(Before(chart, i).events, i);
  }

  lemma SameEventsAt(events: seq<Event>, next: seq<Event>, i: nat)
    requires forall e :: e in next <==> e in events && e.bar < i + 1
    ensures forall d: Direction :: EventAt(events, d, i) <==> EventAt(next, d, i)
  {
  }

  ghost predicate EventAt(events: seq<Event>, d: Direction, i: nat) {
    exists e <- events :: e.direction == d && e.bar == i
  }

  lemma {:induction false} EventsUntil(events: seq<Event>, i: nat)
    requires InOrder(events)
    ensures forall e :: e in Until(events, i) <==> e in events && e.bar < i
  {
    if events != [] {
      var n := |events| - 1;
      if events[n].bar >= i {
        EventsUntil(events[..n], i);
        assert events == events[..n] + [events[n]];
      }
    }
  }

  /**
   * A detected swing is only ever broken after its right-hand window has closed,
   * so no event relies on candles that had not happened when it was reported.
   */
  lemma BreaksFollowConfirmation(chart: Chart, e: Event)
    requires Indexed(chart) && ValidCandles(chart.candles) && chart.cfg.minBreakDistance >= 0.0
    requires forall h <- chart.highs :: IsSwingHigh(chart.candles, chart.cfg.swingLookback, h)
    requires forall l <- chart.lows :: IsSwingLow(chart.candles, chart.cfg.swingLookback, l)
    requires e in Report(chart)
    ensures e.swing < |Swings(chart, e.direction)|
    ensures Swings(chart, e.direction)[e.swing] + chart.cfg.swingLookback < e.bar
  {
    var j: nat :| j < |Report(chart)| && Report(chart)[j] == e;
    EveryEventIsLawful(chart, j);
    var d, i := e.direction, e.bar;
    var bar := Swings(chart, d)[e.swing];
    assert bar in Swings(chart, d) && chart.candles[i] in chart.candles;
    assert d.Buy? ==> chart.candles[i].high > chart.candles[bar].high || i > bar + chart.cfg.swingLookback;
  }

  // ------------------------------------------------------- the newest event

  predicate KeyLess(x: (Kind, Signal), y: (Kind, Signal)) {
    x.1.bar < y.1.bar || (x.1.bar == y.1.bar && x.0.Bos? && y.0.Choch?)
  }

  /** The first element with the greatest (bar, is-CHoCH) key. */
  function Greatest(list: seq<(Kind, Signal)>): (best: Option<(Kind, Signal)>)
    ensures best.Some? ==> best.value in list
    ensures best.None? <==> list == []
  {
    if list == [] then None
    else
      var n := |list| - 1;
      var best := Greatest(list[..n]);
      if best.None? || KeyLess(best.value, list[n]) then Some(list[n]) else best
  }

  function Tagged(signals: seq<Signal>, kind: Kind): (list: seq<(Kind, Signal)>)
    ensures forall x :: x in list <==> x.0 == kind && x.1 in signals
  {
    if signals == [] then []
    else
      assert signals == [signals[0]] + signals[1..];
      [(kind, signals[0])] + Tagged(signals[1..], kind)
  }

  /** The newest structure event, read off the two cut lists. */
  function LatestStructureEvent(bos: seq<Signal>, choch: seq<Signal>): Option<(Kind, Signal)> {
    Greatest(Tagged(bos, Bos) + Tagged(choch, Choch))
  }

  lemma {:induction false} GreatestIs(list: seq<(Kind, Signal)>, x: (Kind, Signal))
    requires x in list && forall y <- list :: y == x || y.1.bar < x.1.bar
    ensures Greatest(list) == Some(x)
  {
    var n := |list| - 1;
    assert list == list[..n] + [list[n]];
    if x in list[..n] {
      GreatestIs(list[..n], x);
    }
  }

  lemma {:induction false} SignalsPrecede(events: seq<Event>, kind: Kind)
    requires InOrder(events) && events != []
    ensures var last := events[|events| - 1];
      forall x <- Signals(events, kind) :: x.bar < last.bar || (kind == last.kind && x == Published(last))
  {
    var init := events[..|events| - 1];
    if init != [] {
      SignalsPrecede(init, kind);
    }
  }

  lemma {:induction false} NoSharedBar(events: seq<Event>)
    requires InOrder(events)
    ensures forall b <- Signals(events, Bos), c <- Signals(events, Choch) :: b.bar != c.bar
  {
    if events != [] {
      NoSharedBar(events[..|events| - 1]);
      SignalsPrecede(events, Bos);
      SignalsPrecede(events, Choch);
    }
  }

  /**
   * Whatever the list limits, the newest event picked from the two cut lists is
   * the last event of the whole stream, and no BOS shares its bar with a CHoCH:
   * the rule that a CHoCH wins a tie never decides.
   */
  lemma NewestEventIsLast(chart: Chart)
    requires Indexed(chart)
    ensures var events := Report(chart);
      var bos := LastFew(Signals(events, Bos), chart.cfg.maxBos);
      var choch := LastFew(Signals(events, Choch), chart.cfg.maxChoch);
      && LatestStructureEvent(bos, choch)
         == (if events == [] then None else Some((events[|events| - 1].kind, Published(events[|events| - 1]))))
      && (forall b <- bos, c <- choch :: b.bar != c.bar)
  {
    EventsInOrder(chart, |chart.candles|);
    NewestOfCut(Report(chart), chart.cfg.maxBos, chart.cfg.maxChoch);
  }

  lemma NewestOfCut(events: seq<Event>, maxBos: nat, maxChoch: nat)
    requires InOrder(events)
    ensures var bos, choch := LastFew(Signals(events, Bos), maxBos), LastFew(Signals(events, Choch), maxChoch);
      && LatestStructureEvent(bos, choch)
         == (if events == [] then None else Some((events[|events| - 1].kind, Published(events[|events| - 1]))))
      && (forall b <- bos, c <- choch :: b.bar != c.bar)
  {
    NoSharedBar(events);
    CutWithin(Signals(events, Bos), maxBos);
    CutWithin(Signals(events, Choch), maxChoch);
    if events != [] {
      SignalsPrecede(events, Bos);
      SignalsPrecede(events, Choch);
      NewestIsLast(LastFew(Signals(events, Bos), maxBos), LastFew(Signals(events, Choch), maxChoch),
                   events[|events| - 1].kind, Published(events[|events| - 1]));
    }
  }

  lemma NewestIsLast(bos: seq<Signal>, choch: seq<Signal>, kind: Kind, last: Signal)
    requires last in (if kind.Bos? then bos else choch)
    requires forall x <- bos :: x.bar < last.bar || (kind.Bos? && x == last)
    requires forall x <- choch :: x.bar < last.bar || (kind.Choch? && x == last)
    ensures LatestStructureEvent(bos, choch) == Some((kind, last))
  {
    GreatestIs(Tagged(bos, Bos) + Tagged(choch, Choch), (kind, last));
  }

  lemma CutWithin(signals: seq<Signal>, n: nat)
    ensures forall x <- LastFew(signals, n) :: x in signals
    ensures signals != [] ==> signals[|signals| - 1] in LastFew(signals, n)
  {
    var cut := LastFew(signals, n);
    if signals != [] {
      assert cut[|cut| - 1] == signals[|signals| - 1];
    }
  }
}
