// Planning the protective stop of a new order from market structure and ATR.
module SmartStop {
  import opened Market
  import opened Options
  import opened Rounding

  const MAX_SL_ATR_MULT := 3.50
  const EPSILON := 0.000000001

  datatype CapitalInput = CapitalInput(
    orderBlockTop: Option<real>, orderBlockBottom: Option<real>,
    swingHigh: Option<real>, swingLow: Option<real>,
    resistance: Option<real>, support: Option<real>,
    limits: Limits)

  /** The multipliers a caller may tune. */
  datatype Limits = Limits(slAtrMult: real, slMinAtrMult: real, bufferAtr: real)

  datatype Mode = AtrFallback | Structural | StructuralMinFloor | StructureTooFar

  datatype Plan = Plan(stop: real, valid: bool, mode: Mode, level: Option<real>, distanceAtr: real)

  function Clamp(x: real, lo: real, hi: real): (r: real)
    ensures lo <= hi ==> lo <= r <= hi
  {
    Max(lo, Min(hi, x))
  }

  /** A level counts when it is a price on the losing side of the entry. */
  predicate Usable(level: Option<real>, entry: real, d: Direction) {
    level.Some? && level.value > 0.0 && (if d.Buy? then level.value < entry else level.value > entry)
  }

  function RawLevels(d: Direction, inp: CapitalInput): seq<Option<real>> {
    if d.Buy? then [inp.orderBlockBottom, inp.swingLow, inp.support] else [inp.orderBlockTop, inp.swingHigh, inp.resistance]
  }

  function UsableLevels(raw: seq<Option<real>>, entry: real, d: Direction): (levels: seq<real>)
    ensures forall x :: x in levels <==> Some(x) in raw && Usable(Some(x), entry, d)
    ensures (forall x <- raw :: !Usable(x, entry, d)) ==> levels == []
  {
    if raw == [] then []
    else
      assert raw == [raw[0]] + raw[1..];
      Kept(raw[0], entry, d) + UsableLevels(raw[1..], entry, d)
  }

  function Kept(level: Option<real>, entry: real, d: Direction): seq<real> {
    if Usable(level, entry, d) then [level.value] else []
  }

  /** The usable level nearest to the entry: the highest below a buy, the lowest above a sell. */
  function Nearest(levels: seq<real>, d: Direction): (x: real)
    requires levels != []
    ensures x in levels && forall y <- levels :: AtLeast(d, x, y)
  {
    if |levels| == 1 then levels[0]
    else
      var rest := Nearest(levels[1..], d);
      assert levels == [levels[0]] + levels[1..];
      if d.Buy? then Max(levels[0], rest) else Min(levels[0], rest)
  }

  /** `distance` away from the entry on the losing side. */
  function StopAt(d: Direction, entry: real, distance: real): real {
    if d.Buy? then entry - distance else entry + distance
  }

  /** The multiplier limits and distances that depend on the ATR alone. */
  datatype Envelope = Envelope(atr: real, minDistance: real, maxDistance: real, buffer: real)

  function EnvelopeOf(atr: real, limits: Limits): (e: Envelope)
    ensures e.atr >= EPSILON && e.buffer >= 0.0
    ensures 0.75 * e.atr <= e.minDistance <= e.maxDistance <= MAX_SL_ATR_MULT * e.atr
  {
    var safe := Max(atr, EPSILON);
    var minMult := Clamp(limits.slMinAtrMult, 0.75, MAX_SL_ATR_MULT);
    var maxMult := Clamp(limits.slAtrMult, minMult, MAX_SL_ATR_MULT);
    EnvelopeAt(safe, minMult, maxMult, Max(0.0, limits.bufferAtr))
  }

  function EnvelopeAt(atr: real, minMult: real, maxMult: real, buffer: real): (e: Envelope)
    requires atr >= EPSILON && 0.75 <= minMult <= maxMult <= MAX_SL_ATR_MULT && buffer >= 0.0
    ensures e.atr >= EPSILON && e.buffer >= 0.0
    ensures 0.75 * e.atr <= e.minDistance <= e.maxDistance <= MAX_SL_ATR_MULT * e.atr
  {
    ScaledBetween(atr, minMult, 0.75, maxMult);
    ScaledBetween(atr, maxMult, minMult, MAX_SL_ATR_MULT);
    Envelope(atr, atr * minMult, atr * maxMult, atr * buffer)
  }

  lemma ScaledBetween(scale: real, x: real, lo: real, hi: real)
    requires scale >= 0.0 && lo <= x <= hi
    ensures lo * scale <= scale * x <= hi * scale
  {
    assert scale * (x - lo) >= 0.0 && scale * (hi - x) >= 0.0;
  }

  /** The planned distance, and how it was chosen. */
  datatype Choice = Choice(distance: real, valid: bool, mode: Mode)

  function Choose(levels: seq<real>, entry: real, d: Direction, e: Envelope): Choice {
    if levels == [] then Choice(e.maxDistance, true, AtrFallback)
    else
      var raw := Abs(entry - Nearest(levels, d)) + e.buffer;
      if raw > e.maxDistance + EPSILON then Choice(e.maxDistance, false, StructureTooFar)
      else Choice(Max(raw, e.minDistance), true, if raw >= e.minDistance then Structural else StructuralMinFloor)
  }

  function Levels(d: Direction, entry: real, inp: CapitalInput): seq<real> {
    UsableLevels(RawLevels(d, inp), entry, d)
  }

  /** The plan before its prices are rounded. */
  function ExactPlan(levels: seq<real>, d: Direction, entry: real, e: Envelope): Plan
    requires e.atr != 0.0
  {
    var c := Choose(levels, entry, d, e);
    Plan(StopAt(d, entry, c.distance), c.valid, c.mode,
         if levels == [] then None else Some(Nearest(levels, d)), c.distance / e.atr)
  }

  function Rounded(plan: Plan): Plan {
    plan.(stop := Round2(plan.stop), level := if plan.level.Some? then Some(Round2(plan.level.value)) else None,
          distanceAtr := Round4(plan.distanceAtr))
  }

  function CalcSmartStop(d: Direction, entry: real, atr: real, inp: CapitalInput): Plan {
    Rounded(ExactPlan(Levels(d, entry, inp), d, entry, EnvelopeOf(atr, inp.limits)))
  }

  // ------------------------------------------------ the plan in prices

  /** The nearest multiplier to the caller's inside the allowed band. */
  predicate IsClamped(m: real, asked: real, lo: real, hi: real) {
    if asked < lo then m == lo else if asked > hi then m == hi else m == asked
  }

  /**
   * Floor, ceiling and buffer are the caller's multiples of the ATR, moved no further
   * than into 0.75 to 3.5 and, for the ceiling, up to the floor.
   */
  lemma EnvelopeFollowsCaller(atr: real, limits: Limits)
    requires atr >= EPSILON
    ensures var e := EnvelopeOf(atr, limits);
      exists floor, ceiling ::
        && IsClamped(floor, limits.slMinAtrMult, 0.75, 3.5) && IsClamped(ceiling, limits.slAtrMult, floor, 3.5)
        && e == Envelope(atr, atr * floor, atr * ceiling, if limits.bufferAtr > 0.0 then atr * limits.bufferAtr else 0.0)
  {
    var floor := Clamp(limits.slMinAtrMult, 0.75, MAX_SL_ATR_MULT);
    var ceiling := Clamp(limits.slAtrMult, floor, MAX_SL_ATR_MULT);
    ClampIs(limits.slMinAtrMult, 0.75, 3.5);
    ClampIs(limits.slAtrMult, floor, 3.5);
    if limits.bufferAtr <= 0.0 {
      assert atr * 0.0 == 0.0;
    }
    assert EnvelopeOf(atr, limits)
        == Envelope(atr, atr * floor, atr * ceiling, if limits.bufferAtr > 0.0 then atr * limits.bufferAtr else 0.0);
  }

  lemma ClampIs(x: real, lo: real, hi: real)
    requires lo <= hi
    ensures IsClamped(Clamp(x, lo, hi), x, lo, hi)
  {
  }

  /** A buy is protected below the entry by block bottom, swing low or support, a sell above by their counterparts. */
  predicate Protects(d: Direction, entry: real, inp: CapitalInput, level: real) {
    if d.Buy? then Some(level) in {inp.orderBlockBottom, inp.swingLow, inp.support} && 0.0 < level < entry
    else Some(level) in {inp.orderBlockTop, inp.swingHigh, inp.resistance} && level > entry && level > 0.0
  }

  lemma LevelsProtect(d: Direction, entry: real, inp: CapitalInput, level: real)
    ensures level in Levels(d, entry, inp) <==> Protects(d, entry, inp, level)
  {
  }

  /** No other protecting level lies nearer to the entry. */
  ghost predicate NearestProtecting(d: Direction, entry: real, inp: CapitalInput, level: real) {
    Protects(d, entry, inp, level) && forall other :: Protects(d, entry, inp, other) ==> AtLeast(d, level, other)
  }

  /**
   * The stop stands the buffer beyond the nearest protecting level, at least the floor
   * away; beyond the ceiling the plan is refused, and without a level it is the ceiling.
   */
  lemma PlanInPrices(d: Direction, entry: real, atr: real, inp: CapitalInput)
    ensures var plan, e := CalcSmartStop(d, entry, atr, inp), EnvelopeOf(atr, inp.limits);
      && (forall level :: NearestProtecting(d, entry, inp, level) ==> PlannedFrom(plan, d, entry, e, level))
      && ((forall level :: !Protects(d, entry, inp, level)) ==>
            plan.valid && plan.mode.AtrFallback? && plan.level.None? && plan.stop == Round2(StopAt(d, entry, e.maxDistance)))
  {
    forall level | NearestProtecting(d, entry, inp, level)
      ensures PlannedFrom(CalcSmartStop(d, entry, atr, inp), d, entry, EnvelopeOf(atr, inp.limits), level) {
      NearestIs(d, entry, inp, level);
      PlanOfNearest(Levels(d, entry, inp), d, entry, EnvelopeOf(atr, inp.limits));
    }
    NoneProtects(d, entry, inp);
  }

  lemma NoneProtects(d: Direction, entry: real, inp: CapitalInput)
    ensures (forall level :: !Protects(d, entry, inp, level)) ==> Levels(d, entry, inp) == []
  {
    if Levels(d, entry, inp) != [] {
      LevelsProtect(d, entry, inp, Levels(d, entry, inp)[0]);
      assert Protects(d, entry, inp, Levels(d, entry, inp)[0]);
    }
  }

  lemma NearestIs(d: Direction, entry: real, inp: CapitalInput, level: real)
    requires NearestProtecting(d, entry, inp, level)
    ensures Levels(d, entry, inp) != [] && Nearest(Levels(d, entry, inp), d) == level
  {
    LevelsProtect(d, entry, inp, level);
    LevelsProtect(d, entry, inp, Nearest(Levels(d, entry, inp), d));
  }

  lemma PlanOfNearest(levels: seq<real>, d: Direction, entry: real, e: Envelope)
    requires levels != [] && e.atr != 0.0
    requires if d.Buy? then Nearest(levels, d) < entry else Nearest(levels, d) > entry
    ensures PlannedFrom(Rounded(ExactPlan(levels, d, entry, e)), d, entry, e, Nearest(levels, d))
  {
    var nearest, plan := Nearest(levels, d), ExactPlan(levels, d, entry, e);
    ChoiceOfNearest(levels, d, entry, e);
    assert plan.level == Some(nearest);
    assert plan.stop == StopAt(d, entry, DistanceFor(e, Gap(d, entry, nearest)));
  }

  /** The distance planned for a level `x` away from the entry. */
  function DistanceFor(e: Envelope, x: real): real {
    if x + e.buffer > e.maxDistance + EPSILON then e.maxDistance else Max(x + e.buffer, e.minDistance)
  }

  lemma ChoiceOfNearest(levels: seq<real>, d: Direction, entry: real, e: Envelope)
    requires levels != []
    requires if d.Buy? then Nearest(levels, d) < entry else Nearest(levels, d) > entry
    ensures var nearest := Nearest(levels, d);
      var gap, c := Gap(d, entry, nearest), Choose(levels, entry, d, e);
      c == Choice(DistanceFor(e, gap), gap + e.buffer <= e.maxDistance + EPSILON, ModeFor(e, gap))
  {
  }

  /** How far a level lies on the losing side of the entry. */
  function Gap(d: Direction, entry: real, level: real): real {
    if d.Buy? then entry - level else level - entry
  }

  function ModeFor(e: Envelope, gap: real): Mode {
    if gap + e.buffer > e.maxDistance + EPSILON then StructureTooFar
    else if gap + e.buffer >= e.minDistance then Structural else StructuralMinFloor
  }

  predicate PlannedFrom(plan: Plan, d: Direction, entry: real, e: Envelope, level: real) {
    var gap := Gap(d, entry, level);
    && plan.level == Some(Round2(level)) && plan.stop == Round2(StopAt(d, entry, DistanceFor(e, gap)))
    && (plan.valid <==> gap + e.buffer <= e.maxDistance + EPSILON) && plan.mode == ModeFor(e, gap)
  }

  // ------------------------------------------------------------ safety

  /** `stop` protects `d` no more than `price` does, give or take half a cent. */
  predicate BeyondOrAt(d: Direction, stop: real, price: real) {
    if d.Buy? then stop <= price + 0.005 else stop >= price - 0.005
  }

  /**
   * A plan is refused exactly when its nearest level, with the buffer, lies
   * outside the envelope. An accepted one keeps the buffer between the stop and
   * every level inside which the trade idea is still intact, respects the noise
   * floor, and never risks more than the envelope.
   */
  lemma AcceptedStopIsBounded(d: Direction, entry: real, atr: real, inp: CapitalInput)
    ensures var plan, e, levels := CalcSmartStop(d, entry, atr, inp), EnvelopeOf(atr, inp.limits), Levels(d, entry, inp);
      && (!plan.valid <==> levels != [] && Abs(entry - Nearest(levels, d)) + e.buffer > e.maxDistance + EPSILON)
      && (plan.valid && levels != [] ==> BeyondOrAt(d, plan.stop, StopAt(d, Nearest(levels, d), e.buffer)))
      && BeyondOrAt(d, plan.stop, StopAt(d, entry, e.minDistance))
      && BeyondOrAt(Opposite(d), plan.stop, StopAt(d, entry, e.maxDistance + EPSILON))
      && (plan.mode == AtrFallback <==> levels == []) && (plan.mode == StructureTooFar <==> !plan.valid)
  {
    var e, levels := EnvelopeOf(atr, inp.limits), Levels(d, entry, inp);
    if levels != [] {
      assert Usable(Some(Nearest(levels, d)), entry, d);
    }
    RoundedNear(StopAt(d, entry, Choose(levels, entry, d, e).distance));
  }

  lemma RoundedNear(x: real)
    ensures x - 0.005 <= Round2(x) <= x + 0.005
  {
  }

  lemma Round2KeepsSide(d: Direction, x: real, y: real)
    requires AtLeast(d, x, y)
    ensures AtLeast(d, Round2(x), Round2(y))
  {
    if d.Buy? {
      Round2Monotone(y, x);
    } else {
      Round2Monotone(x, y);
    }
  }

  /** No plan is nearer to the entry than the noise floor, after rounding too. */
  lemma FloorIsNearest(d: Direction, entry: real, atr: real, inp: CapitalInput)
    ensures var nearest := StopAt(d, entry, EnvelopeOf(atr, inp.limits).minDistance);
      AtLeast(d, Round2(nearest), CalcSmartStop(d, entry, atr, inp).stop)
  {
    var e, levels := EnvelopeOf(atr, inp.limits), Levels(d, entry, inp);
    Round2KeepsSide(d, StopAt(d, entry, e.minDistance), StopAt(d, entry, Choose(levels, entry, d, e).distance));
  }

  /** From a cent entry, or with a noise floor of half a cent, no stop is planned on the winning side. */
  lemma StopNeverPassesEntry(d: Direction, entry: real, atr: real, inp: CapitalInput)
    requires OnCents(entry) || EnvelopeOf(atr, inp.limits).minDistance >= 0.005
    ensures AtLeast(d, entry, CalcSmartStop(d, entry, atr, inp).stop)
    ensures EnvelopeOf(atr, inp.limits).minDistance > 0.005 ==> CalcSmartStop(d, entry, atr, inp).stop != entry
  {
    var nearest := StopAt(d, entry, EnvelopeOf(atr, inp.limits).minDistance);
    Round2Fixed(entry);
    RoundedNear(nearest);
    FloorIsNearest(d, entry, atr, inp);
    Round2KeepsSide(d, entry, nearest);
  }

  /** The stop at `distance` does not round beyond the entry. */
  predicate Safe(d: Direction, entry: real, distance: real) {
    AtLeast(d, entry, Round2(StopAt(d, entry, distance)))
  }

  /** What stops just beyond `y` on the losing side round to. */
  function Round2Beyond(d: Direction, y: real): real {
    if d.Buy? then Round2Below(y) else -Round2Below(-y)
  }

  /** No stop a little farther than `distance` rounds beyond the entry. */
  predicate SafeBeyond(d: Direction, entry: real, distance: real) {
    AtLeast(d, entry, Round2Beyond(d, StopAt(d, entry, distance)))
  }

  /**
   * The noise floor is safe; when the buffer alone already exceeds it, so are the
   * ceiling and, inside the envelope, every distance beyond the buffer.
   */
  predicate NeverPasses(d: Direction, entry: real, e: Envelope) {
    if e.buffer < e.minDistance then Safe(d, entry, e.minDistance)
    else Safe(d, entry, e.maxDistance) && (e.buffer < e.maxDistance + EPSILON ==> SafeBeyond(d, entry, e.buffer))
  }

  lemma Round2Negates(x: real)
    ensures Round2(-x) == -Round2(x)
  {
    RoundIntReflect(x * 100.0, 0);
    assert (-x) * 100.0 == (2 * 0) as real - x * 100.0;
  }

  lemma BeyondBounds(d: Direction, entry: real, buffer: real, x: real)
    requires x > 0.0
    ensures AtLeast(d, Round2Beyond(d, StopAt(d, entry, buffer)), Round2(StopAt(d, entry, x + buffer)))
  {
    var y, s := StopAt(d, entry, buffer), StopAt(d, entry, x + buffer);
    if d.Buy? {
      Round2BelowBounds(y, s);
    } else {
      Round2BelowBounds(-y, -s);
      Round2Negates(s);
    }
  }

  lemma BeyondReached(d: Direction, entry: real, buffer: real, delta: real) returns (x: real)
    requires delta > 0.0
    ensures 0.0 < x < delta && Round2(StopAt(d, entry, x + buffer)) == Round2Beyond(d, StopAt(d, entry, buffer))
  {
    var y := StopAt(d, entry, buffer);
    if d.Buy? {
      var s := Round2BelowReached(y, delta);
      x := y - s;
      assert StopAt(d, entry, x + buffer) == s;
    } else {
      var s := Round2BelowReached(-y, delta);
      x := -y - s;
      assert StopAt(d, entry, x + buffer) == -s;
      Round2Negates(s);
    }
  }

  /** Every planned distance is the ceiling or that of some level. */
  lemma DistanceIsForLevel(levels: seq<real>, entry: real, d: Direction, e: Envelope) returns (x: real)
    requires forall y <- levels :: Usable(Some(y), entry, d)
    ensures x > 0.0
    ensures Choose(levels, entry, d, e).distance == e.maxDistance
         || (levels != [] && Choose(levels, entry, d, e).distance == DistanceFor(e, x))
  {
    x := 1.0;
    if levels != [] {
      x := Abs(entry - Nearest(levels, d));
      assert Usable(Some(Nearest(levels, d)), entry, d);
    }
  }

  lemma DistanceIsSafe(d: Direction, entry: real, e: Envelope, x: real)
    requires NeverPasses(d, entry, e) && e.minDistance <= e.maxDistance && x > 0.0
    ensures Safe(d, entry, e.maxDistance) && Safe(d, entry, DistanceFor(e, x))
  {
    if e.buffer < e.minDistance {
      Round2KeepsSide(d, StopAt(d, entry, e.minDistance), StopAt(d, entry, e.maxDistance));
      Round2KeepsSide(d, StopAt(d, entry, e.minDistance), StopAt(d, entry, DistanceFor(e, x)));
    } else if x + e.buffer <= e.maxDistance + EPSILON {
      BeyondBounds(d, entry, e.buffer, x);
    }
  }

  /** No level at all, or one level `x` away on the side that counts for `d`. */
  function LevelAt(d: Direction, entry: real, x: real, limits: Limits): CapitalInput {
    var level := StopAt(d, entry, x);
    if d.Buy? then CapitalInput(None, None, None, None, None, Some(level), limits)
    else CapitalInput(None, None, None, None, Some(level), None, limits)
  }

  function NoLevel(limits: Limits): CapitalInput {
    CapitalInput(None, None, None, None, None, None, limits)
  }

  lemma LevelIsPlanned(d: Direction, entry: real, atr: real, x: real, limits: Limits)
    requires 0.0 < x && 0.0 < entry && (d.Buy? ==> x < entry)
    ensures CalcSmartStop(d, entry, atr, LevelAt(d, entry, x, limits)).stop
         == Round2(StopAt(d, entry, DistanceFor(EnvelopeOf(atr, limits), x)))
  {
    OnlyLevel(d, entry, x, limits);
  }

  lemma OnlyLevel(d: Direction, entry: real, x: real, limits: Limits)
    requires 0.0 < x && 0.0 < entry && (d.Buy? ==> x < entry)
    ensures var levels := Levels(d, entry, LevelAt(d, entry, x, limits));
      levels != [] && Nearest(levels, d) == StopAt(d, entry, x)
  {
    var level, inp := StopAt(d, entry, x), LevelAt(d, entry, x, limits);
    assert Some(level) in RawLevels(d, inp) && Usable(Some(level), entry, d);
    assert forall y <- Levels(d, entry, inp) :: y == level;
    assert level in Levels(d, entry, inp);
  }

  lemma CeilingIsPlanned(d: Direction, entry: real, atr: real, limits: Limits)
    ensures CalcSmartStop(d, entry, atr, NoLevel(limits)).stop == Round2(StopAt(d, entry, EnvelopeOf(atr, limits).maxDistance))
  {
    assert Levels(d, entry, NoLevel(limits)) == [];
  }

  /** Limits that are not safe have a plan that passes the entry. */
  lemma UnsafePlan(d: Direction, entry: real, atr: real, limits: Limits) returns (inp: CapitalInput)
    requires entry > 0.0 && !NeverPasses(d, entry, EnvelopeOf(atr, limits))
    ensures inp.limits == limits && !AtLeast(d, entry, CalcSmartStop(d, entry, atr, inp).stop)
  {
    var e := EnvelopeOf(atr, limits);
    if e.buffer >= e.minDistance && !Safe(d, entry, e.maxDistance) {
      CeilingIsPlanned(d, entry, atr, limits);
      return NoLevel(limits);
    }
    var x := UnsafeLevel(d, entry, e);
    LevelIsPlanned(d, entry, atr, x, limits);
    inp := LevelAt(d, entry, x, limits);
  }

  /** A level in front of the entry whose planned distance is not safe. */
  lemma UnsafeLevel(d: Direction, entry: real, e: Envelope) returns (x: real)
    requires entry > 0.0 && e.minDistance <= e.maxDistance && !NeverPasses(d, entry, e)
    requires e.buffer >= e.minDistance ==> Safe(d, entry, e.maxDistance)
    ensures 0.0 < x < entry && !Safe(d, entry, DistanceFor(e, x))
  {
    if e.buffer < e.minDistance {
      x := Min(e.minDistance - e.buffer, entry / 2.0);
      assert DistanceFor(e, x) == e.minDistance;
    } else {
      x := BeyondReached(d, entry, e.buffer, Min(e.maxDistance + EPSILON - e.buffer, entry));
      assert DistanceFor(e, x) == x + e.buffer;
    }
  }

  /**
   * With given limits no plan puts the stop beyond the entry if and only if the
   * noise floor is safe or, for a buffer as wide as the floor, the ceiling and
   * the distances beyond the buffer are.
   */
  lemma StopNeverPassesEntryIff(d: Direction, entry: real, atr: real, limits: Limits)
    requires entry > 0.0
    ensures (forall inp: CapitalInput | inp.limits == limits :: AtLeast(d, entry, CalcSmartStop(d, entry, atr, inp).stop))
       <==> NeverPasses(d, entry, EnvelopeOf(atr, limits))
  {
    var e := EnvelopeOf(atr, limits);
    if NeverPasses(d, entry, e) {
      forall inp: CapitalInput | inp.limits == limits ensures AtLeast(d, entry, CalcSmartStop(d, entry, atr, inp).stop) {
        SafePlan(d, entry, atr, inp);
      }
    } else {
      var inp := UnsafePlan(d, entry, atr, limits);
    }
  }

  lemma SafePlan(d: Direction, entry: real, atr: real, inp: CapitalInput)
    requires NeverPasses(d, entry, EnvelopeOf(atr, inp.limits))
    ensures AtLeast(d, entry, CalcSmartStop(d, entry, atr, inp).stop)
  {
    var e, levels := EnvelopeOf(atr, inp.limits), Levels(d, entry, inp);
    var x := DistanceIsForLevel(levels, entry, d, e);
    DistanceIsSafe(d, entry, e, x);
    assert Safe(d, entry, Choose(levels, entry, d, e).distance);
  }

  /** An off-grid entry with an ATR of three hundredths of a cent is such a case. */
  lemma OffGridStopPassesEntry()
    ensures var inp := CapitalInput(None, None, None, None, None, None, Limits(3.0, 1.5, 0.2));
      CalcSmartStop(Buy, 100.006, 0.0003, inp).stop > 100.006
  {
    var inp := CapitalInput(None, None, None, None, None, None, Limits(3.0, 1.5, 0.2));
    assert Levels(Buy, 100.006, inp) == [];
    assert EnvelopeOf(0.0003, inp.limits).maxDistance == 0.0009;
    assert RoundInt(10000.51) == 10001;
  }

  // ---------------------------------------------------------- mirror symmetry

  function MirrorLevel(x: Option<real>, centre: real): Option<real> {
    if x.Some? then Some(centre - x.value) else None
  }

  /** Reflected prices, tops trading places with bottoms and resistances with supports. */
  function MirrorInput(inp: CapitalInput, centre: real): CapitalInput {
    inp.(orderBlockTop := MirrorLevel(inp.orderBlockBottom, centre),
         orderBlockBottom := MirrorLevel(inp.orderBlockTop, centre),
         swingHigh := MirrorLevel(inp.swingLow, centre), swingLow := MirrorLevel(inp.swingHigh, centre),
         resistance := MirrorLevel(inp.support, centre), support := MirrorLevel(inp.resistance, centre))
  }

  /** Reflection keeps every given level a positive price. */
  predicate Reflectable(raw: seq<Option<real>>, centre: real) {
    forall i :: 0 <= i < |raw| && raw[i].Some? ==> 0.0 < raw[i].value < centre
  }

  lemma {:induction false} MirrorUsable(raw: seq<Option<real>>, m: seq<Option<real>>,
                                        entry: real, d: Direction, centre: real)
    requires |m| == |raw| && forall i :: 0 <= i < |raw| ==> m[i] == MirrorLevel(raw[i], centre)
    requires Reflectable(raw, centre)
    ensures UsableLevels(m, centre - entry, Opposite(d)) == MirrorPrices(UsableLevels(raw, entry, d), centre)
  {
    if raw != [] {
      assert m[0] == MirrorLevel(raw[0], centre);
      MirrorUsable(raw[1..], m[1..], entry, d, centre);
      MirrorOne(raw[0], entry, d, centre);
      MirrorConcat(Kept(raw[0], entry, d), UsableLevels(raw[1..], entry, d), centre);
    }
  }

  lemma MirrorConcat(xs: seq<real>, ys: seq<real>, centre: real)
    ensures MirrorPrices(xs + ys, centre) == MirrorPrices(xs, centre) + MirrorPrices(ys, centre)
  {
  }

  lemma MirrorOne(x: Option<real>, entry: real, d: Direction, centre: real)
    requires x.Some? ==> 0.0 < x.value < centre
    ensures Kept(MirrorLevel(x, centre), centre - entry, Opposite(d)) == MirrorPrices(Kept(x, entry, d), centre)
  {
  }

  lemma {:induction false} MirrorNearest(levels: seq<real>, d: Direction, centre: real)
    requires levels != []
    ensures Nearest(MirrorPrices(levels, centre), Opposite(d)) == centre - Nearest(levels, d)
  {
    if |levels| > 1 {
      assert MirrorPrices(levels, centre)[1..] == MirrorPrices(levels[1..], centre);
      MirrorNearest(levels[1..], d, centre);
    }
  }

  function MirrorOf(plan: Plan, centre: real): Plan {
    plan.(stop := centre - plan.stop, level := MirrorLevel(plan.level, centre))
  }

  lemma MirrorChoice(levels: seq<real>, entry: real, d: Direction, e: Envelope, centre: real)
    ensures Choose(MirrorPrices(levels, centre), centre - entry, Opposite(d), e) == Choose(levels, entry, d, e)
  {
    if levels != [] {
      MirrorNearest(levels, d, centre);
    }
  }

  /** Before rounding, the plan of the mirrored order is the mirrored plan for every centre. */
  lemma MirrorExact(levels: seq<real>, d: Direction, entry: real, e: Envelope, centre: real)
    requires e.atr != 0.0
    ensures ExactPlan(MirrorPrices(levels, centre), Opposite(d), centre - entry, e)
         == MirrorOf(ExactPlan(levels, d, entry, e), centre)
  {
    MirrorChoice(levels, entry, d, e, centre);
    if levels != [] {
      MirrorNearest(levels, d, centre);
    }
  }

  predicate IsCents(x: real, n: int) {
    x * 100.0 == n as real
  }

  ghost predicate EvenCents(x: real) {
    exists m: int :: IsCents(x, 2 * m)
  }

  /** Cent rounding commutes with reflection, for all prices, exactly about an even number of cents. */
  lemma Round2MirrorsIff(centre: real)
    ensures (forall x :: Round2(centre - x) == centre - Round2(x)) <==> EvenCents(centre)
  {
    if EvenCents(centre) {
      var m :| IsCents(centre, 2 * m);
      forall x ensures Round2(centre - x) == centre - Round2(x) {
        Round2Mirror(x, centre, m);
      }
    } else {
      OddCentreFails(centre);
    }
  }

  /** The reflection of 0 or that of half a cent goes wrong. */
  lemma OddCentreFails(centre: real)
    requires !EvenCents(centre)
    ensures Round2(centre - 0.0) != centre - Round2(0.0) || Round2(centre - 0.005) != centre - Round2(0.005)
  {
    RoundIntExact(0);
    assert RoundInt(0.5) == 0;
    var n := RoundInt(centre * 100.0);
    if Round2(centre) == centre {
      EvenMultiple(centre, n);
      assert (centre - 0.005) * 100.0 == n as real - 0.5;
      assert RoundInt(n as real - 0.5) == n - 1;
    }
  }

  lemma EvenMultiple(x: real, n: int)
    requires IsCents(x, n)
    ensures n % 2 == 0 ==> EvenCents(x)
  {
    if n % 2 == 0 {
      assert IsCents(x, 2 * (n / 2));
    }
  }

  lemma Round2Mirror(x: real, centre: real, m: int)
    requires IsCents(centre, 2 * m)
    ensures Round2(centre - x) == centre - Round2(x)
  {
    RoundIntReflect(x * 100.0, m);
    assert (centre - x) * 100.0 == (2 * m) as real - x * 100.0;
  }

  lemma MirrorRounded(plan: Plan, centre: real)
    requires EvenCents(centre)
    ensures Rounded(MirrorOf(plan, centre)) == MirrorOf(Rounded(plan), centre)
  {
    var m :| IsCents(centre, 2 * m);
    Round2Mirror(plan.stop, centre, m);
    if plan.level.Some? {
      Round2Mirror(plan.level.value, centre, m);
    }
  }

  lemma MirrorLevels(d: Direction, entry: real, inp: CapitalInput, centre: real)
    requires Reflectable(RawLevels(d, inp), centre)
    ensures Levels(Opposite(d), centre - entry, MirrorInput(inp, centre)) == MirrorPrices(Levels(d, entry, inp), centre)
  {
    MirrorUsable(RawLevels(d, inp), RawLevels(Opposite(d), MirrorInput(inp, centre)), entry, d, centre);
  }

  /**
   * The plan of the mirrored order is the mirrored plan, to the cent, when the
   * mirror's centre is an even number of cents and every level survives it.
   */
  lemma MirrorPlan(d: Direction, entry: real, atr: real, inp: CapitalInput, centre: real)
    requires Reflectable(RawLevels(d, inp), centre) && EvenCents(centre)
    ensures CalcSmartStop(Opposite(d), centre - entry, atr, MirrorInput(inp, centre))
         == MirrorOf(CalcSmartStop(d, entry, atr, inp), centre)
  {
    var e, exact := EnvelopeOf(atr, inp.limits), ExactPlan(Levels(d, entry, inp), d, entry, EnvelopeOf(atr, inp.limits));
    MirrorLevels(d, entry, inp, centre);
    MirrorExact(Levels(d, entry, inp), d, entry, e, centre);
    MirrorRounded(exact, centre);
  }
}
