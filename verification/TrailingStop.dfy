// The three-stage trailing stop of one ticket, the poll that drives every
// live ticket, and what holds after any stream of quotes.
module TrailingStop {
  import opened Options
  import opened Market
  import opened Rounding

  datatype Stage = Waiting | Breakeven | Chandelier

  /** Per-ticket record: entry and risk never change, extremes and latch do. */
  datatype Baseline = Baseline(
    direction: Direction, entry: real, riskDistance: real, initialSl: real,
    high: real, low: real, armed: bool)

  datatype Config = Config(multiplier: real, minStep: real)

  datatype Decision = Decision(stage: Stage, candidate: Option<real>, high: real, low: real, armed: bool)

  /** How far `x` lies beyond `y` in the direction of profit. */
  function Lead(d: Direction, x: real, y: real): real {
    if d.Buy? then x - y else y - x
  }

  /** One initial risk unit; a stored stop of zero falls back to the stored distance. */
  function RiskUnit(b: Baseline): real {
    if b.initialSl > 0.0 && Abs(b.entry - b.initialSl) > 0.0 then Abs(b.entry - b.initialSl)
    else Abs(b.riskDistance)
  }

  function Better(d: Direction, x: real, y: real): real {
    if d.Buy? then Max(x, y) else Min(x, y)
  }

  function ComputeAdaptiveTrail(b: Baseline, price: real, atr: real, cfg: Config, currentSl: real): Decision {
    var profit := Round8(Max(0.0, Lead(b.direction, price, b.entry)));
    var high := Max(Max(b.entry, b.high), price);
    var low := Min(Min(b.entry, b.low), price);
    var armed := b.armed || (RiskUnit(b) > 0.0 && profit >= RiskUnit(b));
    var stage := StageOf(b, armed, atr, currentSl);
    Decision(stage, CandidateOf(b, stage, high, low, Band(cfg, atr)), Round8(high), Round8(low), armed)
  }

  function StageOf(b: Baseline, armed: bool, atr: real, currentSl: real): Stage {
    if !armed then Waiting
    else if !AtLeast(b.direction, currentSl, b.entry) then Breakeven
    else if atr > 0.0 then Chandelier
    else Waiting
  }

  function Band(cfg: Config, atr: real): real {
    cfg.multiplier * atr
  }

  function CandidateOf(b: Baseline, stage: Stage, high: real, low: real, band: real): Option<real> {
    match stage
    case Waiting => None
    case Breakeven => Some(Round8(b.entry))
    case Chandelier => Some(Round8(if b.direction.Buy? then high - band else low + band))
  }

  /** A missing or degenerate initial stop falls back to the stored distance, so only a record without either has no unit. */
  lemma RiskUnitPositiveIff(b: Baseline)
    ensures RiskUnit(b) > 0.0 <==> (b.initialSl > 0.0 && b.initialSl != b.entry) || b.riskDistance != 0.0
  {
  }

  function ShouldApply(d: Direction, currentSl: real, candidate: Option<real>, step: real): bool {
    candidate.Some? && Lead(d, candidate.value, currentSl) >= step
  }

  // ------------------------------------------------------------ one ticket

  /** A ticket as the robot records it and the broker holds it. */
  datatype Ticket = Ticket(base: Baseline, sl: real)

  /** One poll: a quote, the timeframe's ATR and whether the broker takes a modification. */
  datatype Tick = Tick(bid: real, ask: real, atr: real, accepted: bool)

  function PriceFor(d: Direction, tick: Tick): real {
    if d.Buy? then tick.bid else tick.ask
  }

  /** The favourable extreme is widened before the decision reads it. */
  function WithExtreme(b: Baseline, price: real): Baseline {
    if b.direction.Buy? then b.(high := Max(Max(b.high, b.entry), price))
    else b.(low := Min(Min(b.low, b.entry), price))
  }

  function Decide(b: Baseline, sl: real, tick: Tick, cfg: Config): Decision {
    var price := PriceFor(b.direction, tick);
    ComputeAdaptiveTrail(WithExtreme(b, price), price, tick.atr, cfg, sl)
  }

  function NextBaseline(b: Baseline, sl: real, tick: Tick, cfg: Config): Baseline {
    var d := Decide(b, sl, tick, cfg);
    b.(high := d.high, low := d.low, armed := d.armed)
  }

  /** The stop sent to the broker, rounded to cents; None when nothing is sent. */
  function Request(b: Baseline, sl: real, tick: Tick, cfg: Config): Option<real> {
    var d := Decide(b, sl, tick, cfg);
    if ShouldApply(b.direction, sl, d.candidate, if d.stage.Breakeven? then 0.0 else cfg.minStep)
    then Some(Round2(d.candidate.value))
    else None
  }

  function TickStep(t: Ticket, tick: Tick, cfg: Config): Ticket {
    var sent := Request(t.base, t.sl, tick, cfg);
    Ticket(NextBaseline(t.base, t.sl, tick, cfg),
           if sent.Some? && tick.accepted then sent.value else t.sl)
  }

  function Run(t: Ticket, ticks: seq<Tick>, cfg: Config): Ticket
    decreases |ticks|
  {
    if ticks == [] then t else Run(TickStep(t, ticks[0], cfg), ticks[1..], cfg)
  }

  /** Entry, side and risk unit belong to the ticket for life. */
  predicate SameTrade(b: Baseline, c: Baseline) {
    c == b.(high := c.high, low := c.low, armed := c.armed)
  }

  // ---------------------------------------------------------- the ratchet

  /** `x` moved `step` in the direction of profit. */
  function Forward(d: Direction, x: real, step: real): real {
    if d.Buy? then x + step else x - step
  }

  /** The first price of at most eight decimals at or beyond `x` in the direction of profit. */
  function NextQuote(d: Direction, x: real): (q: real)
    ensures Quoted(q) && AtLeast(d, q, x)
    ensures forall y :: Quoted(y) && AtLeast(d, y, x) ==> AtLeast(d, y, q)
  {
    NextQuoteIsFirst(x);
    NextQuoteIsFirst(-x);
    if d.Buy? then Ceil8(x) else -Ceil8(-x)
  }

  lemma NextQuoteIsFirst(x: real)
    ensures Ceil8(x) >= x && Quoted(Ceil8(x)) && Quoted(-Ceil8(x))
    ensures forall y :: Quoted(y) && y >= x ==> y >= Ceil8(x)
    ensures forall y :: Quoted(y) && -y >= x ==> -y >= Ceil8(x)
  {
    var n := -(-x * 100000000.0).Floor;
    assert Ceil8(x) * 100000000.0 == n as real && (-Ceil8(x)) * 100000000.0 == (-n) as real;
    RoundIntExact(n);
    RoundIntExact(-n);
    forall y | Quoted(y) && y >= x ensures y >= Ceil8(x) {
      assert RoundInt(y * 100000000.0) >= n;
    }
    forall y | Quoted(y) && -y >= x ensures -y >= Ceil8(x) {
      assert -RoundInt(y * 100000000.0) >= n;
    }
  }

  /** The next stop a ticket at or beyond entry may ask for: the first quote one step ahead. */
  function NextLevel(d: Direction, sl: real, cfg: Config): real {
    NextQuote(d, Forward(d, sl, cfg.minStep))
  }

  /**
   * Rounding the least favourable stop the ticket may send to cents keeps it as
   * protective as `sl`: the entry price while the stop is short of entry, the
   * next level once it is not.
   */
  predicate RoundsInFavour(b: Baseline, sl: real, cfg: Config) {
    var d, entry := b.direction, Round8(b.entry);
    if AtLeast(d, sl, b.entry) then AtLeast(d, Round2(NextLevel(d, sl, cfg)), sl)
    else AtLeast(d, entry, sl) ==> AtLeast(d, Round2(entry), sl)
  }

  lemma Round2KeepsOrder(d: Direction, x: real, y: real)
    requires AtLeast(d, x, y)
    ensures AtLeast(d, Round2(x), Round2(y))
  {
    if d.Buy? {
      Round2Monotone(y, x);
    } else {
      Round2Monotone(x, y);
    }
  }

  /** Every stop on the cent grid rounds in favour, whatever the trade. */
  lemma CentStopRoundsInFavour(b: Baseline, sl: real, cfg: Config)
    requires OnCents(sl) && cfg.minStep >= 0.0
    ensures RoundsInFavour(b, sl, cfg)
  {
    var d, entry := b.direction, Round8(b.entry);
    Round2Fixed(sl);
    Round2KeepsOrder(d, NextLevel(d, sl, cfg), sl);
    if AtLeast(d, entry, sl) {
      Round2KeepsOrder(d, entry, sl);
    }
  }

  /** So does every stop, on any grid, at least half a cent short of a quoted entry. */
  lemma DistantStopRoundsInFavour(b: Baseline, sl: real, cfg: Config)
    requires Quoted(b.entry) && Lead(b.direction, b.entry, sl) >= 0.005
    ensures RoundsInFavour(b, sl, cfg)
  {
  }

  lemma Round8Quoted(x: real)
    ensures Quoted(Round8(x))
  {
    RoundIntExact(RoundInt(x * 100000000.0));
  }

  lemma NextQuoteBounds(d: Direction, x: real, y: real)
    requires Quoted(y) && AtLeast(d, y, x)
    ensures AtLeast(d, y, NextQuote(d, x))
  {
  }

  /** A Chandelier request asks for the next level or more. */
  lemma ChandelierPassesNextLevel(b: Baseline, sl: real, tick: Tick, cfg: Config)
    requires Decide(b, sl, tick, cfg).stage.Chandelier? && Request(b, sl, tick, cfg).Some?
    ensures var c := Decide(b, sl, tick, cfg).candidate;
      && c.Some? && AtLeast(b.direction, c.value, NextLevel(b.direction, sl, cfg))
      && Request(b, sl, tick, cfg).value == Round2(c.value)
  {
    var price := PriceFor(b.direction, tick);
    var wide := WithExtreme(b, price);
    var high, low := Max(Max(wide.entry, wide.high), price), Min(Min(wide.entry, wide.low), price);
    Round8Quoted(if b.direction.Buy? then high - Band(cfg, tick.atr) else low + Band(cfg, tick.atr));
    NextQuoteBounds(b.direction, Forward(b.direction, sl, cfg.minStep), Decide(b, sl, tick, cfg).candidate.value);
  }

  /** Every stop sent is at least as protective as the live one, and rounds in favour itself. */
  lemma RequestMovesInFavour(b: Baseline, sl: real, tick: Tick, cfg: Config)
    requires RoundsInFavour(b, sl, cfg) && cfg.minStep >= 0.0
    ensures var sent := Request(b, sl, tick, cfg);
            sent.Some? ==> AtLeast(b.direction, sent.value, sl) && OnCents(sent.value) && RoundsInFavour(b, sent.value, cfg)
  {
    var sent := Request(b, sl, tick, cfg);
    if sent.Some? {
      var decision := Decide(b, sl, tick, cfg);
      if decision.stage.Chandelier? {
        ChandelierPassesNextLevel(b, sl, tick, cfg);
        Round2KeepsOrder(b.direction, decision.candidate.value, NextLevel(b.direction, sl, cfg));
      }
      CentStopRoundsInFavour(b, sent.value, cfg);
    }
  }

  lemma TickMovesInFavour(t: Ticket, tick: Tick, cfg: Config)
    requires RoundsInFavour(t.base, t.sl, cfg) && cfg.minStep >= 0.0
    ensures var t1 := TickStep(t, tick, cfg);
      && AtLeast(t.base.direction, t1.sl, t.sl) && RoundsInFavour(t1.base, t1.sl, cfg) && SameTrade(t.base, t1.base)
  {
    RequestMovesInFavour(t.base, t.sl, tick, cfg);
  }

  /** Through any quotes, accepted or refused, the stop only moves in the trade's favour. */
  lemma {:induction false} StopOnlyRatchets(t: Ticket, ticks: seq<Tick>, cfg: Config)
    requires RoundsInFavour(t.base, t.sl, cfg) && cfg.minStep >= 0.0
    ensures var end := Run(t, ticks, cfg);
      && AtLeast(t.base.direction, end.sl, t.sl) && RoundsInFavour(end.base, end.sl, cfg) && SameTrade(t.base, end.base)
    decreases |ticks|
  {
    if ticks != [] {
      TickMovesInFavour(t, ticks[0], cfg);
      StopOnlyRatchets(TickStep(t, ticks[0], cfg), ticks[1..], cfg);
    }
  }

  // ------------------------------------------- the ratchet's exact condition

  /** A quote that arms the ticket and leads `level` by a whole unit. */
  function FarQuote(b: Baseline, level: real): real {
    Forward(b.direction, Better(b.direction, Better(b.direction, Forward(b.direction, b.entry, RiskUnit(b)), level),
                                Extreme(b)), 1.0)
  }

  function FarTick(b: Baseline, level: real, cfg: Config): Tick
    requires cfg.multiplier > 0.0
  {
    var price := FarQuote(b, level);
    Tick(price, price, Lead(b.direction, price, level) / cfg.multiplier, true)
  }

  lemma FarQuoteLeads(b: Baseline, level: real)
    ensures var d, price := b.direction, FarQuote(b, level);
      && Lead(d, price, b.entry) >= RiskUnit(b) + 1.0 && Lead(d, price, level) >= 1.0 && Lead(d, price, Extreme(b)) >= 1.0
  {
  }

  lemma FarTickArms(b: Baseline, sl: real, level: real, cfg: Config)
    requires cfg.multiplier > 0.0 && RiskUnit(b) > 0.0
    ensures Decide(b, sl, FarTick(b, level, cfg), cfg).armed
  {
    FarQuoteLeads(b, level);
  }

  lemma BandOfFarTick(b: Baseline, level: real, cfg: Config)
    requires cfg.multiplier > 0.0
    ensures var tick := FarTick(b, level, cfg);
      tick.atr > 0.0 && Band(cfg, tick.atr) == Lead(b.direction, FarQuote(b, level), level)
  {
    var gap := Lead(b.direction, FarQuote(b, level), level);
    FarQuoteLeads(b, level);
    QuotientPositive(gap, cfg.multiplier);
  }

  lemma QuotientPositive(x: real, m: real)
    requires x > 0.0 && m > 0.0
    ensures x / m > 0.0 && m * (x / m) == x
  {
    var q := x / m;
    assert m * q == x;
    assert q <= 0.0 ==> m * q <= 0.0;
  }

  /** On such a quote the ticket asks for entry, or for any quoted level it has not reached. */
  lemma FarTickDecides(b: Baseline, sl: real, level: real, cfg: Config)
    requires cfg.multiplier > 0.0 && RiskUnit(b) > 0.0 && Quoted(level)
    ensures var d := Decide(b, sl, FarTick(b, level, cfg), cfg);
      && d.candidate == Some(if AtLeast(b.direction, sl, b.entry) then level else Round8(b.entry))
      && d.stage == (if AtLeast(b.direction, sl, b.entry) then Chandelier else Breakeven)
  {
    var tick, price := FarTick(b, level, cfg), FarQuote(b, level);
    FarTickArms(b, sl, level, cfg);
    BandOfFarTick(b, level, cfg);
    FarQuoteLeads(b, level);
    var wide := WithExtreme(b, price);
    var high, low := Max(Max(wide.entry, wide.high), price), Min(Min(wide.entry, wide.low), price);
    var stage := StageOf(wide, true, tick.atr, sl);
    assert Decide(b, sl, tick, cfg).candidate == CandidateOf(wide, stage, high, low, Band(cfg, tick.atr));
    assert if b.direction.Buy? then high == price else low == price;
  }

  /**
   * The stop only ratchets, over every stream of quotes, if and only if it
   * rounds in favour.
   */
  lemma RatchetsIff(t: Ticket, cfg: Config)
    requires cfg.minStep >= 0.0 && cfg.multiplier > 0.0 && RiskUnit(t.base) > 0.0
    ensures (forall ticks: seq<Tick> :: AtLeast(t.base.direction, Run(t, ticks, cfg).sl, t.sl))
       <==> RoundsInFavour(t.base, t.sl, cfg)
  {
    if RoundsInFavour(t.base, t.sl, cfg) {
      forall ticks: seq<Tick> ensures AtLeast(t.base.direction, Run(t, ticks, cfg).sl, t.sl) {
        StopOnlyRatchets(t, ticks, cfg);
      }
    } else {
      var ticks := BackwardTicks(t, cfg);
      assert !AtLeast(t.base.direction, Run(t, ticks, cfg).sl, t.sl);
    }
  }

  /** A ticket that does not round in favour is moved backward by a single accepted request. */
  lemma BackwardTicks(t: Ticket, cfg: Config) returns (ticks: seq<Tick>)
    requires cfg.minStep >= 0.0 && cfg.multiplier > 0.0 && RiskUnit(t.base) > 0.0
    requires !RoundsInFavour(t.base, t.sl, cfg)
    ensures !AtLeast(t.base.direction, Run(t, ticks, cfg).sl, t.sl)
    ensures SameTrade(t.base, Run(t, ticks, cfg).base)
  {
    var b := t.base;
    var level := if AtLeast(b.direction, t.sl, b.entry) then NextLevel(b.direction, t.sl, cfg) else Round8(b.entry);
    Round8Quoted(b.entry);
    FarTickSends(t, level, cfg);
    ticks := [FarTick(b, level, cfg)];
  }

  /** When it may be sent, what the ticket asks for becomes its stop, rounded to cents. */
  lemma FarTickSends(t: Ticket, level: real, cfg: Config)
    requires cfg.multiplier > 0.0 && RiskUnit(t.base) > 0.0 && Quoted(level)
    ensures var d, sl, end := t.base.direction, t.sl, Run(t, [FarTick(t.base, level, cfg)], cfg);
      && SameTrade(t.base, end.base)
      && (AtLeast(d, sl, t.base.entry) && Lead(d, level, sl) >= cfg.minStep ==> end.sl == Round2(level))
      && (!AtLeast(d, sl, t.base.entry) && AtLeast(d, Round8(t.base.entry), sl) ==> end.sl == Round2(Round8(t.base.entry)))
  {
    var tick := FarTick(t.base, level, cfg);
    FarTickDecides(t.base, t.sl, level, cfg);
    assert [tick][0] == tick && [tick][1..] == [];
    assert Run(t, [tick], cfg) == TickStep(t, tick, cfg);
  }

  // ------------------------------------------------------------- breakeven

  /** The next level after `sl`, rounded to cents, is still at or beyond entry. */
  predicate KeepsBreakeven(b: Baseline, sl: real, cfg: Config) {
    AtLeast(b.direction, Round2(NextLevel(b.direction, sl, cfg)), b.entry)
  }

  predicate Steady(b: Baseline, sl: real, cfg: Config) {
    AtLeast(b.direction, sl, b.entry) ==> KeepsBreakeven(b, sl, cfg)
  }

  lemma CentStopIsSteady(b: Baseline, sl: real, cfg: Config)
    requires OnCents(sl) && cfg.minStep >= 0.0
    ensures Steady(b, sl, cfg)
  {
    Round2Fixed(sl);
    Round2KeepsOrder(b.direction, NextLevel(b.direction, sl, cfg), sl);
  }

  lemma TickKeepsSteady(t: Ticket, tick: Tick, cfg: Config)
    requires Steady(t.base, t.sl, cfg) && cfg.minStep >= 0.0
    ensures var t1 := TickStep(t, tick, cfg);
      && Steady(t1.base, t1.sl, cfg) && SameTrade(t.base, t1.base)
      && (AtLeast(t.base.direction, t.sl, t.base.entry) ==> AtLeast(t.base.direction, t1.sl, t.base.entry))
  {
    var sent := Request(t.base, t.sl, tick, cfg);
    if sent.Some? && tick.accepted {
      var decision := Decide(t.base, t.sl, tick, cfg);
      if decision.stage.Chandelier? {
        ChandelierPassesNextLevel(t.base, t.sl, tick, cfg);
        Round2KeepsOrder(t.base.direction, decision.candidate.value, NextLevel(t.base.direction, t.sl, cfg));
      }
      CentStopIsSteady(TickStep(t, tick, cfg).base, sent.value, cfg);
    }
  }

  /** Once at or beyond entry, the live stop stays there. */
  lemma {:induction false} BreakevenIsKept(t: Ticket, ticks: seq<Tick>, cfg: Config)
    requires cfg.minStep >= 0.0 && AtLeast(t.base.direction, t.sl, t.base.entry) && KeepsBreakeven(t.base, t.sl, cfg)
    ensures AtLeast(t.base.direction, Run(t, ticks, cfg).sl, t.base.entry)
    decreases |ticks|
  {
    if ticks != [] {
      TickKeepsSteady(t, ticks[0], cfg);
      BreakevenIsKept(TickStep(t, ticks[0], cfg), ticks[1..], cfg);
    }
  }

  /** It stays there over every stream of quotes if and only if its next level rounds to entry or beyond. */
  lemma BreakevenIsKeptIff(t: Ticket, cfg: Config)
    requires cfg.minStep >= 0.0 && cfg.multiplier > 0.0 && RiskUnit(t.base) > 0.0
    requires AtLeast(t.base.direction, t.sl, t.base.entry)
    ensures (forall ticks: seq<Tick> :: AtLeast(t.base.direction, Run(t, ticks, cfg).sl, t.base.entry))
       <==> KeepsBreakeven(t.base, t.sl, cfg)
  {
    if KeepsBreakeven(t.base, t.sl, cfg) {
      forall ticks: seq<Tick> ensures AtLeast(t.base.direction, Run(t, ticks, cfg).sl, t.base.entry) {
        BreakevenIsKept(t, ticks, cfg);
      }
    } else {
      var level := NextLevel(t.base.direction, t.sl, cfg);
      FarTickSends(t, level, cfg);
      assert !AtLeast(t.base.direction, Run(t, [FarTick(t.base, level, cfg)], cfg).sl, t.base.entry);
    }
  }

  /**
   * An accepted breakeven modification reaches breakeven exactly when cent
   * rounding does not push the entry price to the losing side.
   */
  lemma BreakevenReachedIff(t: Ticket, tick: Tick, cfg: Config)
    requires Decide(t.base, t.sl, tick, cfg).stage.Breakeven? && tick.accepted && Quoted(t.base.entry)
    ensures AtLeast(t.base.direction, TickStep(t, tick, cfg).sl, t.base.entry)
       <==> AtLeast(t.base.direction, Round2(t.base.entry), t.base.entry)
  {
  }

  // ------------------------------------------------------- the lag bound

  /**
   * The most favourable price since entry: the entry itself, the recorded extreme and
   * every quote, kept to eight decimals from poll to poll.
   */
  function BestSeen(d: Direction, entry: real, extreme: real, ticks: seq<Tick>): real
    decreases |ticks|
  {
    var best := Better(d, entry, extreme);
    if ticks == [] then best
    else BestSeen(d, entry, Round8(Better(d, best, PriceFor(d, ticks[0]))), ticks[1..])
  }

  /** The Chandelier level at tick `i`, from the quotes alone: the best price so far less the ATR band. */
  function Level(b: Baseline, ticks: seq<Tick>, i: nat, cfg: Config): real
    requires i < |ticks|
  {
    var d := b.direction;
    Hung(d, Better(d, BestSeen(d, b.entry, Extreme(b), ticks[..i]), PriceFor(d, ticks[i])), Band(cfg, ticks[i].atr))
  }

  /** A stop `band` behind the best price. */
  function Hung(d: Direction, best: real, band: real): real {
    Round8(if d.Buy? then best - band else best + band)
  }

  /** The level a tick proposes hangs from the best price seen, its own quote included. */
  lemma CandidateHangsFromBest(b: Baseline, sl: real, tick: Tick, cfg: Config)
    requires Decide(b, sl, tick, cfg).stage.Chandelier?
    ensures Decide(b, sl, tick, cfg).candidate
         == Some(Hung(b.direction, BestWith(b, PriceFor(b.direction, tick)), Band(cfg, tick.atr)))
  {
    var d, price := b.direction, PriceFor(b.direction, tick);
    var wide := WithExtreme(b, price);
    WideIsBest(b, price);
    HungCandidate(wide, Max(Max(wide.entry, wide.high), price), Min(Min(wide.entry, wide.low), price),
                  Band(cfg, tick.atr));
  }

  /** The most favourable of entry, recorded extreme and `price`. */
  function BestWith(b: Baseline, price: real): real {
    Better(b.direction, Better(b.direction, b.entry, Extreme(b)), price)
  }

  lemma WideIsBest(b: Baseline, price: real)
    ensures var wide := WithExtreme(b, price);
      BestWith(b, price) == if b.direction.Buy? then Max(Max(wide.entry, wide.high), price)
                            else Min(Min(wide.entry, wide.low), price)
  {
  }

  lemma HungCandidate(b: Baseline, high: real, low: real, band: real)
    ensures CandidateOf(b, Chandelier, high, low, band) == Some(Hung(b.direction, if b.direction.Buy? then high else low, band))
  {
  }

  lemma LevelOfRest(b: Baseline, b1: Baseline, ticks: seq<Tick>, i: nat, cfg: Config)
    requires i + 1 < |ticks| && SameTrade(b, b1)
    requires Extreme(b1) == Round8(BestWith(b, PriceFor(b.direction, ticks[0])))
    ensures Level(b, ticks, i + 1, cfg) == Level(b1, ticks[1..], i, cfg)
  {
    var start := ticks[..i + 1];
    assert start[0] == ticks[0] && start[1..] == ticks[1..][..i];
    BestSeenStep(b, start, Extreme(b1));
    var d, best, tick := b.direction, BestSeen(b.direction, b.entry, Extreme(b), start), ticks[i + 1];
    assert tick == ticks[1..][i];
    assert best == BestSeen(d, b.entry, Extreme(b1), ticks[1..][..i]);
    assert Level(b, ticks, i + 1, cfg) == Hung(d, Better(d, best, PriceFor(d, tick)), Band(cfg, tick.atr));
  }

  lemma BestSeenStep(b: Baseline, ticks: seq<Tick>, extreme: real)
    requires ticks != [] && extreme == Round8(BestWith(b, PriceFor(b.direction, ticks[0])))
    ensures BestSeen(b.direction, b.entry, Extreme(b), ticks) == BestSeen(b.direction, b.entry, extreme, ticks[1..])
  {
  }

  lemma ExtremeAfterTick(t: Ticket, tick: Tick, cfg: Config)
    ensures var b, b1 := t.base, TickStep(t, tick, cfg).base;
      SameTrade(b, b1) && Extreme(b1) == Round8(BestWith(b, PriceFor(b.direction, tick)))
  {
    WideIsBest(t.base, PriceFor(t.base.direction, tick));
  }

  /** `sl` trails `level` by less than the minimum step, or by half a cent of rounding. */
  predicate Lags(d: Direction, level: real, sl: real, cfg: Config) {
    Lead(d, level, sl) < cfg.minStep || Lead(d, level, sl) <= 0.005
  }

  /** What a level seen earlier and every later stop have in common. */
  predicate Follows(b: Baseline, level: real, sl: real, cfg: Config) {
    || (OnCents(sl) && Lags(b.direction, level, sl, cfg))
    || (AtLeast(b.direction, sl, b.entry) && Lead(b.direction, level, sl) < cfg.minStep)
  }

  lemma TickKeepsFollowing(t: Ticket, tick: Tick, cfg: Config, level: real)
    requires Follows(t.base, level, t.sl, cfg) && cfg.minStep >= 0.0
    ensures var t1 := TickStep(t, tick, cfg); Follows(t1.base, level, t1.sl, cfg) && SameTrade(t.base, t1.base)
  {
    if OnCents(t.sl) {
      CentStopRoundsInFavour(t.base, t.sl, cfg);
      RequestMovesInFavour(t.base, t.sl, tick, cfg);
    }
  }

  lemma {:induction false} FollowsThroughout(t: Ticket, ticks: seq<Tick>, cfg: Config, level: real)
    requires Follows(t.base, level, t.sl, cfg) && cfg.minStep >= 0.0
    ensures Lags(t.base.direction, level, Run(t, ticks, cfg).sl, cfg)
    decreases |ticks|
  {
    if ticks != [] {
      TickKeepsFollowing(t, ticks[0], cfg, level);
      FollowsThroughout(TickStep(t, ticks[0], cfg), ticks[1..], cfg, level);
    }
  }

  /** When every modification is accepted, the final stop lags no level of the run by a full step. */
  lemma {:induction false} StopFollowsEveryLevel(t: Ticket, ticks: seq<Tick>, cfg: Config)
    requires cfg.minStep >= 0.0
    requires forall tick <- ticks :: tick.accepted
    ensures LagsNoLevel(t, ticks, cfg, Run(t, ticks, cfg).sl)
    decreases |ticks|
  {
    if ticks != [] {
      StopFollowsEveryLevel(TickStep(t, ticks[0], cfg), ticks[1..], cfg);
      if Decide(t.base, t.sl, ticks[0], cfg).stage.Chandelier? {
        FollowsFirstLevel(t, ticks, cfg);
      }
      LevelsCons(t, ticks, cfg, Run(t, ticks, cfg).sl);
    }
  }

  /** `sl` lags the level of no tick at which the ticket is in its Chandelier stage. */
  predicate LagsNoLevel(t: Ticket, ticks: seq<Tick>, cfg: Config, sl: real) {
    forall i :: 0 <= i < |ticks| && Stages(t, ticks, cfg)[i].Chandelier? ==>
      Lags(t.base.direction, Level(t.base, ticks, i, cfg), sl, cfg)
  }

  lemma LevelsCons(t: Ticket, ticks: seq<Tick>, cfg: Config, sl: real)
    requires ticks != [] && LagsNoLevel(TickStep(t, ticks[0], cfg), ticks[1..], cfg, sl)
    requires Decide(t.base, t.sl, ticks[0], cfg).stage.Chandelier? ==>
               Lags(t.base.direction, Level(t.base, ticks, 0, cfg), sl, cfg)
    ensures LagsNoLevel(t, ticks, cfg, sl)
  {
    var t1 := TickStep(t, ticks[0], cfg);
    ExtremeAfterTick(t, ticks[0], cfg);
    forall i | 0 < i < |ticks| && Stages(t, ticks, cfg)[i].Chandelier?
      ensures Lags(t.base.direction, Level(t.base, ticks, i, cfg), sl, cfg) {
      assert Stages(t1, ticks[1..], cfg)[i - 1].Chandelier?;
      LevelOfRest(t.base, t1.base, ticks, i - 1, cfg);
    }
  }

  lemma FollowsFirstLevel(t: Ticket, ticks: seq<Tick>, cfg: Config)
    requires cfg.minStep >= 0.0 && ticks != [] && ticks[0].accepted
    requires Decide(t.base, t.sl, ticks[0], cfg).stage.Chandelier?
    ensures Lags(t.base.direction, Level(t.base, ticks, 0, cfg), Run(t, ticks, cfg).sl, cfg)
  {
    var level := Level(t.base, ticks, 0, cfg);
    CandidateHangsFromBest(t.base, t.sl, ticks[0], cfg);
    FirstLevel(t.base, ticks, cfg);
    AcceptedTickFollows(t, ticks[0], cfg, level);
    FollowsThroughout(TickStep(t, ticks[0], cfg), ticks[1..], cfg, level);
  }

  lemma FirstLevel(b: Baseline, ticks: seq<Tick>, cfg: Config)
    requires ticks != []
    ensures Level(b, ticks, 0, cfg)
         == Hung(b.direction, BestWith(b, PriceFor(b.direction, ticks[0])), Band(cfg, ticks[0].atr))
  {
    var start := ticks[..0];
    assert start == [];
    assert BestSeen(b.direction, b.entry, Extreme(b), start) == Better(b.direction, b.entry, Extreme(b));
  }

  lemma AcceptedTickFollows(t: Ticket, tick: Tick, cfg: Config, level: real)
    requires cfg.minStep >= 0.0 && tick.accepted && Decide(t.base, t.sl, tick, cfg).stage.Chandelier?
    requires Decide(t.base, t.sl, tick, cfg).candidate == Some(level)
    ensures var t1 := TickStep(t, tick, cfg); Follows(t1.base, level, t1.sl, cfg) && SameTrade(t.base, t1.base)
  {
    if Request(t.base, t.sl, tick, cfg).Some? {
      Round2IsCents(level);
    }
  }

  lemma Round2IsCents(x: real)
    ensures OnCents(Round2(x)) && x - 0.005 <= Round2(x) <= x + 0.005
  {
  }

  /** With a step above half a cent, the lag is below the step. */
  lemma StopLagsLessThanStep(t: Ticket, ticks: seq<Tick>, cfg: Config)
    requires cfg.minStep > 0.005
    requires forall tick <- ticks :: tick.accepted
    ensures forall i :: 0 <= i < |ticks| && Stages(t, ticks, cfg)[i].Chandelier? ==>
              Lead(t.base.direction, Level(t.base, ticks, i, cfg), Run(t, ticks, cfg).sl) < cfg.minStep
  {
    StopFollowsEveryLevel(t, ticks, cfg);
    forall i | 0 <= i < |ticks| && Stages(t, ticks, cfg)[i].Chandelier?
      ensures Lead(t.base.direction, Level(t.base, ticks, i, cfg), Run(t, ticks, cfg).sl) < cfg.minStep {
      assert Lags(t.base.direction, Level(t.base, ticks, i, cfg), Run(t, ticks, cfg).sl, cfg);
    }
  }

  // --------------------------------------------------- the latch and stages

  /** A price with at most eight decimals. */
  predicate Quoted(x: real) {
    Round8(x) == x
  }

  lemma QuotedDifference(x: real, y: real)
    requires Quoted(x) && Quoted(y)
    ensures Quoted(x - y)
  {
    var n, m := RoundInt(x * 100000000.0), RoundInt(y * 100000000.0);
    assert (x - y) * 100000000.0 == (n - m) as real;
    RoundIntExact(n - m);
  }

  function Extreme(b: Baseline): real {
    if b.direction.Buy? then b.high else b.low
  }

  /** The latch says exactly whether the recorded extreme has earned one risk unit. */
  predicate Latched(b: Baseline) {
    && Quoted(b.entry) && Quoted(Extreme(b))
    && Lead(b.direction, Extreme(b), b.entry) >= 0.0
    && (b.armed <==> RiskUnit(b) > 0.0 && Lead(b.direction, Extreme(b), b.entry) >= RiskUnit(b))
  }

  predicate QuotedTicks(ticks: seq<Tick>) {
    forall tick <- ticks :: Quoted(tick.bid) && Quoted(tick.ask)
  }

  /** The record written when an order is placed. */
  function NewBaseline(d: Direction, entry: real, stop: real): Baseline {
    Baseline(d, entry, Abs(entry - stop), stop, entry, entry, false)
  }

  lemma NewBaselineIsLatched(d: Direction, entry: real, stop: real)
    requires Quoted(entry) && stop > 0.0
    ensures Latched(NewBaseline(d, entry, stop)) && RiskUnit(NewBaseline(d, entry, stop)) == Abs(entry - stop)
  {
  }

  lemma TickKeepsLatch(t: Ticket, tick: Tick, cfg: Config)
    requires Latched(t.base) && Quoted(tick.bid) && Quoted(tick.ask)
    ensures Latched(TickStep(t, tick, cfg).base)
    ensures Extreme(TickStep(t, tick, cfg).base) ==
            Better(t.base.direction, Extreme(t.base), PriceFor(t.base.direction, tick))
    ensures t.base.armed ==> TickStep(t, tick, cfg).base.armed
  {
    TickWidensExtreme(t.base, t.sl, tick, cfg);
    TickArmsIff(t.base, t.sl, tick, cfg);
  }

  lemma TickWidensExtreme(b: Baseline, sl: real, tick: Tick, cfg: Config)
    requires Latched(b) && Quoted(tick.bid) && Quoted(tick.ask)
    ensures var next := NextBaseline(b, sl, tick, cfg);
      && SameTrade(b, next) && Quoted(Extreme(next))
      && Extreme(next) == Better(b.direction, Extreme(b), PriceFor(b.direction, tick))
  {
  }

  /** A tick arms exactly when its own price has earned one risk unit: the profit of quotes needs no rounding. */
  lemma TickArmsIff(b: Baseline, sl: real, tick: Tick, cfg: Config)
    requires Quoted(b.entry) && Quoted(tick.bid) && Quoted(tick.ask)
    ensures NextBaseline(b, sl, tick, cfg).armed <==>
            b.armed || (RiskUnit(b) > 0.0 && Lead(b.direction, PriceFor(b.direction, tick), b.entry) >= RiskUnit(b))
  {
    var lead := Lead(b.direction, PriceFor(b.direction, tick), b.entry);
    assert Quoted(lead) by {
      if b.direction.Buy? {
        QuotedDifference(tick.bid, b.entry);
      } else {
        QuotedDifference(b.entry, tick.ask);
      }
    }
    assert Quoted(0.0) by {
      RoundIntExact(0);
    }
    assert Round8(Max(0.0, lead)) == Max(0.0, lead);
  }

  /** The most favourable of `start` and every quote of the run. */
  function BestQuote(d: Direction, start: real, ticks: seq<Tick>): real
    decreases |ticks|
  {
    if ticks == [] then start else BestQuote(d, Better(d, start, PriceFor(d, ticks[0])), ticks[1..])
  }

  /**
   * After any run the recorded extreme is the best quote seen, and the latch
   * is set exactly when that extreme has reached one risk unit from entry.
   */
  lemma {:induction false} LatchedThroughout(t: Ticket, ticks: seq<Tick>, cfg: Config)
    requires Latched(t.base) && QuotedTicks(ticks)
    ensures Latched(Run(t, ticks, cfg).base)
    ensures Extreme(Run(t, ticks, cfg).base) == BestQuote(t.base.direction, Extreme(t.base), ticks)
    decreases |ticks|
  {
    if ticks != [] {
      TickKeepsLatch(t, ticks[0], cfg);
      LatchedThroughout(TickStep(t, ticks[0], cfg), ticks[1..], cfg);
    }
  }

  /** The best quote is one of the quotes, bids of a buy and asks of a sell, or the start, and none is better. */
  lemma {:induction false} BestQuoteIsBest(d: Direction, start: real, ticks: seq<Tick>)
    ensures var best := BestQuote(d, start, ticks);
      && (if d.Buy? then best >= start && forall tick <- ticks :: best >= tick.bid
          else best <= start && forall tick <- ticks :: best <= tick.ask)
      && (best == start || exists tick <- ticks :: best == if d.Buy? then tick.bid else tick.ask)
    decreases |ticks|
  {
    if ticks != [] {
      assert forall tick <- ticks :: tick == ticks[0] || tick in ticks[1..];
      BestQuoteIsBest(d, Better(d, start, PriceFor(d, ticks[0])), ticks[1..]);
    }
  }

  /** On broker quotes no rounding shows: the best price seen is the best quote. */
  lemma {:induction false} BestSeenIsBestQuote(d: Direction, entry: real, extreme: real, ticks: seq<Tick>)
    requires Quoted(extreme) && AtLeast(d, extreme, entry) && QuotedTicks(ticks)
    ensures BestSeen(d, entry, extreme, ticks) == BestQuote(d, extreme, ticks)
    decreases |ticks|
  {
    if ticks != [] {
      assert ticks[0] in ticks && forall tick <- ticks[1..] :: tick in ticks;
      BestSeenIsBestQuote(d, entry, Better(d, extreme, PriceFor(d, ticks[0])), ticks[1..]);
    }
  }

  lemma {:induction false} BestQuoteAppend(d: Direction, start: real, ticks: seq<Tick>, tick: Tick)
    ensures BestQuote(d, start, ticks + [tick]) == Better(d, BestQuote(d, start, ticks), PriceFor(d, tick))
    decreases |ticks|
  {
    if ticks == [] {
      assert ticks + [tick] == [tick];
    } else {
      assert (ticks + [tick])[0] == ticks[0] && (ticks + [tick])[1..] == ticks[1..] + [tick];
      BestQuoteAppend(d, Better(d, start, PriceFor(d, ticks[0])), ticks[1..], tick);
    }
  }

  /** On broker quotes the level of a tick hangs from the best quote up to it. */
  lemma LevelOfQuotes(b: Baseline, ticks: seq<Tick>, i: nat, cfg: Config)
    requires Quoted(Extreme(b)) && AtLeast(b.direction, Extreme(b), b.entry) && QuotedTicks(ticks) && i < |ticks|
    ensures Level(b, ticks, i, cfg)
         == Hung(b.direction, BestQuote(b.direction, Extreme(b), ticks[..i + 1]), Band(cfg, ticks[i].atr))
  {
    BestSeenPrefix(b, ticks, i);
  }

  lemma BestSeenPrefix(b: Baseline, ticks: seq<Tick>, i: nat)
    requires Quoted(Extreme(b)) && AtLeast(b.direction, Extreme(b), b.entry) && QuotedTicks(ticks) && i < |ticks|
    ensures Better(b.direction, BestSeen(b.direction, b.entry, Extreme(b), ticks[..i]), PriceFor(b.direction, ticks[i]))
         == BestQuote(b.direction, Extreme(b), ticks[..i + 1])
  {
    var d, start := b.direction, ticks[..i];
    assert ticks[..i + 1] == start + [ticks[i]];
    assert forall tick <- start :: tick in ticks;
    BestSeenIsBestQuote(d, b.entry, Extreme(b), start);
    BestQuoteAppend(d, Extreme(b), start, ticks[i]);
  }

  /** What the next tick makes of a ticket whose best price since entry is `best` and whose live stop is `sl`. */
  function Asked(b: Baseline, best: real, sl: real, atr: real, cfg: Config): (Stage, Option<real>) {
    var d := b.direction;
    if RiskUnit(b) <= 0.0 || Lead(d, best, b.entry) < RiskUnit(b) then (Waiting, None)
    else if !AtLeast(d, sl, b.entry) then (Breakeven, Some(Round2(b.entry)))
    else if atr <= 0.0 then (Waiting, None)
    else
      var level := Hung(d, best, Band(cfg, atr));
      (Chandelier, if Lead(d, level, sl) >= cfg.minStep then Some(Round2(level)) else None)
  }

  /**
   * After any stream of broker quotes, the stage and the request of the next tick are
   * decided by the best quote so far, the live stop and the tick's ATR alone.
   */
  lemma QuotesDecide(t: Ticket, ticks: seq<Tick>, tick: Tick, cfg: Config)
    requires Latched(t.base) && QuotedTicks(ticks) && Quoted(tick.bid) && Quoted(tick.ask)
    ensures var t1, best := Run(t, ticks, cfg), BestQuote(t.base.direction, Extreme(t.base), ticks + [tick]);
      (Decide(t1.base, t1.sl, tick, cfg).stage, Request(t1.base, t1.sl, tick, cfg)) == Asked(t.base, best, t1.sl, tick.atr, cfg)
  {
    var t1, d := Run(t, ticks, cfg), t.base.direction;
    LatchedThroughout(t, ticks, cfg);
    SameTradeThroughout(t, ticks, cfg);
    BestQuoteAppend(d, Extreme(t.base), ticks, tick);
    LatchedTickAsks(t1, tick, cfg);
  }

  lemma {:induction false} SameTradeThroughout(t: Ticket, ticks: seq<Tick>, cfg: Config)
    ensures SameTrade(t.base, Run(t, ticks, cfg).base)
    decreases |ticks|
  {
    if ticks != [] {
      SameTradeThroughout(TickStep(t, ticks[0], cfg), ticks[1..], cfg);
    }
  }

  lemma LatchedTickAsks(t: Ticket, tick: Tick, cfg: Config)
    requires Latched(t.base) && Quoted(tick.bid) && Quoted(tick.ask)
    ensures var best := Better(t.base.direction, Extreme(t.base), PriceFor(t.base.direction, tick));
      (Decide(t.base, t.sl, tick, cfg).stage, Request(t.base, t.sl, tick, cfg)) == Asked(t.base, best, t.sl, tick.atr, cfg)
  {
    var b := t.base;
    var d, decision := b.direction, Decide(b, t.sl, tick, cfg);
    TickArmsIff(b, t.sl, tick, cfg);
    assert Better(d, b.entry, Extreme(b)) == Extreme(b);
    assert decision.stage == Asked(b, BestWith(b, PriceFor(d, tick)), t.sl, tick.atr, cfg).0;
    if decision.stage.Chandelier? {
      CandidateHangsFromBest(b, t.sl, tick, cfg);
    }
  }

  function Rank(s: Stage): nat {
    match s case Waiting => 0 case Breakeven => 1 case Chandelier => 2
  }

  function Stages(t: Ticket, ticks: seq<Tick>, cfg: Config): (s: seq<Stage>)
    ensures |s| == |ticks|
    decreases |ticks|
  {
    if ticks == [] then []
    else [Decide(t.base, t.sl, ticks[0], cfg).stage] + Stages(TickStep(t, ticks[0], cfg), ticks[1..], cfg)
  }

  /** A lower bound on every stage still to come while ATR stays positive. */
  predicate Reached(t: Ticket, rank: nat) {
    && (rank >= 1 ==> t.base.armed)
    && (rank >= 2 ==> AtLeast(t.base.direction, t.sl, t.base.entry))
  }

  /** With positive ATR the stages never go back: waiting, breakeven, chandelier. */
  lemma {:induction false} StagesOnlyAdvance(t: Ticket, ticks: seq<Tick>, cfg: Config, rank: nat)
    requires Steady(t.base, t.sl, cfg) && cfg.minStep >= 0.0 && Reached(t, rank) && rank <= 2
    requires PositiveAtr(ticks)
    ensures AllReach(Stages(t, ticks, cfg), rank) && Advancing(Stages(t, ticks, cfg))
    decreases |ticks|
  {
    if ticks != [] {
      var first := Decide(t.base, t.sl, ticks[0], cfg).stage;
      StageReaches(t, ticks[0], cfg, rank);
      StagesOnlyAdvance(TickStep(t, ticks[0], cfg), ticks[1..], cfg, Rank(first));
      AdvancingCons(first, Stages(TickStep(t, ticks[0], cfg), ticks[1..], cfg), rank);
    }
  }

  lemma StageReaches(t: Ticket, tick: Tick, cfg: Config, rank: nat)
    requires Steady(t.base, t.sl, cfg) && cfg.minStep >= 0.0 && Reached(t, rank) && rank <= 2 && tick.atr > 0.0
    ensures var t1, stage := TickStep(t, tick, cfg), Decide(t.base, t.sl, tick, cfg).stage;
      Rank(stage) >= rank && Reached(t1, Rank(stage)) && Steady(t1.base, t1.sl, cfg)
  {
    TickKeepsSteady(t, tick, cfg);
  }

  predicate PositiveAtr(ticks: seq<Tick>) {
    forall tick <- ticks :: tick.atr > 0.0
  }

  predicate Advancing(stages: seq<Stage>) {
    forall i, j :: 0 <= i < j < |stages| ==> Rank(stages[i]) <= Rank(stages[j])
  }

  predicate AllReach(stages: seq<Stage>, rank: nat) {
    forall i :: 0 <= i < |stages| ==> Rank(stages[i]) >= rank
  }

  lemma AdvancingCons(first: Stage, rest: seq<Stage>, rank: nat)
    requires Rank(first) >= rank && AllReach(rest, Rank(first)) && Advancing(rest)
    ensures AllReach([first] + rest, rank) && Advancing([first] + rest)
  {
  }

  /** Over every stream with positive ATR the stages never go back if and only if the stop is steady. */
  lemma StagesOnlyAdvanceIff(t: Ticket, cfg: Config)
    requires cfg.minStep >= 0.0 && cfg.multiplier > 0.0 && RiskUnit(t.base) > 0.0
    ensures (forall ticks: seq<Tick> | PositiveAtr(ticks) :: Advancing(Stages(t, ticks, cfg)))
       <==> Steady(t.base, t.sl, cfg)
  {
    if Steady(t.base, t.sl, cfg) {
      forall ticks: seq<Tick> | PositiveAtr(ticks) ensures Advancing(Stages(t, ticks, cfg)) {
        StagesOnlyAdvance(t, ticks, cfg, 0);
      }
    } else {
      var tick := FarTick(t.base, NextLevel(t.base.direction, t.sl, cfg), cfg);
      BackToBreakeven(t, cfg);
      assert !Advancing(Stages(t, [tick, tick], cfg)) by {
        assert Rank(Stages(t, [tick, tick], cfg)[0]) > Rank(Stages(t, [tick, tick], cfg)[1]);
      }
    }
  }

  /** An unsteady stop is sent short of entry, and the next quote starts over at breakeven. */
  lemma BackToBreakeven(t: Ticket, cfg: Config)
    requires cfg.minStep >= 0.0 && cfg.multiplier > 0.0 && RiskUnit(t.base) > 0.0
    requires AtLeast(t.base.direction, t.sl, t.base.entry) && !KeepsBreakeven(t.base, t.sl, cfg)
    ensures var tick := FarTick(t.base, NextLevel(t.base.direction, t.sl, cfg), cfg);
      PositiveAtr([tick, tick]) && Stages(t, [tick, tick], cfg) == [Chandelier, Breakeven]
  {
    var level := NextLevel(t.base.direction, t.sl, cfg);
    var tick := FarTick(t.base, level, cfg);
    var t1 := TickStep(t, tick, cfg);
    BandOfFarTick(t.base, level, cfg);
    FarTickDecides(t.base, t.sl, level, cfg);
    FarTickArms(t.base, t.sl, level, cfg);
    assert t1.sl == Round2(level) && t1.base.armed;
    assert [tick, tick][1..] == [tick] && [tick][1..] == [];
    assert Stages(t1, [tick], cfg) == [Decide(t1.base, t1.sl, tick, cfg).stage] + Stages(TickStep(t1, tick, cfg), [], cfg);
    assert Decide(t1.base, t1.sl, tick, cfg).stage == Breakeven;
  }

  /** A ticket whose stop is past entry falls back to the waiting label exactly on a tick without ATR. */
  lemma StageFallsBackIff(t: Ticket, tick: Tick, cfg: Config)
    requires t.base.armed && AtLeast(t.base.direction, t.sl, t.base.entry)
    ensures Decide(t.base, t.sl, tick, cfg).stage.Waiting? <==> tick.atr <= 0.0
  {
  }

  // --------------------------------------------------- saving and reloading

  /** The persisted fields of one baseline; None is a field that was never written. */
  datatype SavedBaseline = SavedBaseline(
    direction: Direction, entry: real, riskDistance: real, initialSl: Option<real>,
    high: Option<real>, low: Option<real>, armed: Option<bool>)

  function SaveBaseline(b: Baseline): SavedBaseline {
    SavedBaseline(b.direction, b.entry, b.riskDistance, Some(b.initialSl), Some(b.high), Some(b.low), Some(b.armed))
  }

  function Default<T>(x: Option<T>, d: T): T {
    if x.Some? then x.value else d
  }

  function LoadBaseline(s: SavedBaseline): Option<Baseline> {
    if s.riskDistance <= 0.0 then None
    else Some(Baseline(s.direction, s.entry, s.riskDistance, Default(s.initialSl, 0.0), Default(s.high, s.entry),
                       Default(s.low, s.entry), Default(s.armed, false)))
  }

  /** Saving and reloading keeps a ticket's whole record, so every run continues unchanged. */
  lemma ReloadIsTransparent(t: Ticket, ticks: seq<Tick>, cfg: Config)
    ensures LoadBaseline(SaveBaseline(t.base)) == (if t.base.riskDistance > 0.0 then Some(t.base) else None)
    ensures t.base.riskDistance > 0.0 ==>
            Run(Ticket(LoadBaseline(SaveBaseline(t.base)).value, t.sl), ticks, cfg) == Run(t, ticks, cfg)
  {
  }

  /** A record written before stops and extremes were kept starts over at its entry, with its stored distance as the unit. */
  lemma OldRecordStartsAtEntry(d: Direction, entry: real, distance: real)
    requires distance > 0.0
    ensures var b := LoadBaseline(SavedBaseline(d, entry, distance, None, None, None, None));
      b.Some? && !b.value.armed && RiskUnit(b.value) == distance && b.value.high == b.value.low == b.value.entry == entry
  {
  }

  // ----------------------------------------------------- every live ticket

  datatype Position = Position(id: string, direction: Direction, openPrice: real, sl: real)

  /** The record recovered for a ticket that has none: the entry log first, then the live row. */
  function Recovered(p: Position, history: map<string, Baseline>): Option<Baseline> {
    if p.id in history then Some(history[p.id])
    else if Abs(p.openPrice - p.sl) > 0.0 then Some(NewBaseline(p.direction, p.openPrice, p.sl))
    else None
  }

  /**
   * A ticket first seen continues from its logged record, else starts a record with its
   * live stop as the risk unit; without either nothing is recorded or sent.
   */
  lemma FirstSeenTicket(p: Position, tick: Tick, history: map<string, Baseline>, cfg: Config)
    ensures var (record, sent) := UpdateTicket(p, None, tick, history, cfg);
      && (p.id in history ==> (record, sent) == UpdateTicket(p, Some(history[p.id]), tick, history, cfg))
      && (p.id !in history && p.sl != p.openPrice ==>
            && record.Some? && record.value.direction == p.direction && record.value.entry == p.openPrice
            && RiskUnit(record.value) == Abs(p.openPrice - p.sl))
      && (p.id !in history && p.sl == p.openPrice ==> record.None? && sent.None?)
  {
  }

  predicate DistinctIds(live: seq<Position>) {
    forall i, j :: 0 <= i < j < |live| ==> live[i].id != live[j].id
  }

  function Find<T>(m: map<string, T>, id: string): Option<T> {
    if id in m then Some(m[id]) else None
  }

  /** What one poll makes of one live ticket: its next record and the stop to send. */
  function UpdateTicket(p: Position, known: Option<Baseline>, tick: Tick, history: map<string, Baseline>, cfg: Config)
    : (Option<Baseline>, Option<real>)
  {
    var b := if known.Some? then known else Recovered(p, history);
    if b.None? then (None, None)
    else (Some(NextBaseline(b.value, p.sl, tick, cfg)), Request(b.value, p.sl, tick, cfg))
  }

  /** Runs `update` for every live ticket; no ticket reads or writes another's record. */
  method UpdateEach(live: seq<Position>, known: map<string, Baseline>,
                    update: (Position, Option<Baseline>) -> (Option<Baseline>, Option<real>))
    returns (records: map<string, Baseline>, sent: map<string, real>)
    requires DistinctIds(live)
    ensures forall p <- live :: (Find(records, p.id), Find(sent, p.id)) == update(p, Find(known, p.id))
    ensures forall id <- records :: exists p <- live :: p.id == id
  {
    records, sent := map[], map[];
    for i := 0 to |live|
      invariant forall j :: 0 <= j < i ==>
        (Find(records, live[j].id), Find(sent, live[j].id)) == update(live[j], Find(known, live[j].id))
      invariant forall j :: i <= j < |live| ==> live[j].id !in records && live[j].id !in sent
      invariant forall id <- records :: exists p <- live :: p.id == id
    {
      var p := live[i];
      var (record, request) := update(p, Find(known, p.id));
      if record.Some? {
        records := records[p.id := record.value];
      }
      if request.Some? {
        sent := sent[p.id := request.value];
      }
    }
  }

  class TrailManager {
    var baselines: map<string, Baseline>
    const cfg: Config

    constructor (cfg: Config)
      ensures this.cfg == cfg && baselines == map[]
    {
      this.cfg := cfg;
      baselines := map[];
    }

    /**
     * One poll over the live rows.  Records of absent tickets are dropped;
     * each live ticket advances from its own record and nothing else.
     */
    method Poll(live: seq<Position>, ticks: map<string, Tick>, history: map<string, Baseline>)
      returns (sent: map<string, real>)
      requires DistinctIds(live) && forall p <- live :: p.id in ticks
      modifies this
      ensures forall p <- live ::
        (Find(baselines, p.id), Find(sent, p.id))
          == UpdateTicket(p, Find(old(baselines), p.id), ticks[p.id], history, cfg)
      ensures forall id <- baselines :: exists p <- live :: p.id == id
    {
      var records;
      records, sent := UpdateEach(live, baselines, (p: Position, known: Option<Baseline>) =>
        if p.id in ticks then UpdateTicket(p, known, ticks[p.id], history, cfg) else (None, None));
      baselines := records;
    }
  }
}
