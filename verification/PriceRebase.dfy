// Re-anchoring an order's stop and target to the live quote, rounded to the
// broker's price grid, outside the broker's minimum distances.
module PriceRebase {
  import opened Options
  import opened Market
  import opened Rounding
  import opened AggregateRisk
  import OrderSizing
  import TrailingStop

  // ------------------------------------------------- broker distance levels

  /** Minimum distances in points; None is a level the broker does not report. */
  datatype Levels = Levels(stops: Option<real>, freeze: Option<real>, sl: Option<real>, tp: Option<real>)

  function MaxOf(xs: seq<Option<real>>): (m: Option<real>)
    ensures m.None? <==> forall x <- xs :: x.None?
    ensures m.Some? ==> m in xs && forall x <- xs :: x.Some? ==> x.value <= m.value
  {
    if xs == [] then None
    else
      var rest := MaxOf(xs[1..]);
      assert forall x <- xs :: x == xs[0] || x in xs[1..];
      if xs[0].None? then rest
      else if rest.None? || xs[0].value >= rest.value then xs[0]
      else rest
  }

  /** The larger of a side's own and the common levels; the other side's when it has none. */
  function Required(common: seq<Option<real>>, own: Option<real>, other: Option<real>): Option<real> {
    if MaxOf(common + [own]).Some? then MaxOf(common + [own]) else other
  }

  function SlRequired(l: Levels): Option<real> {
    Required([l.stops, l.freeze], l.sl, l.tp)
  }

  function TpRequired(l: Levels): Option<real> {
    Required([l.stops, l.freeze], l.tp, l.sl)
  }

  /** Both distances exist exactly when the broker reports any level, and cover the levels of their side. */
  lemma RequiredCoversLevels(l: Levels)
    ensures SlRequired(l).Some? <==> l != Levels(None, None, None, None)
    ensures TpRequired(l).Some? <==> l != Levels(None, None, None, None)
    ensures forall x <- [l.stops, l.freeze, l.sl] :: x.Some? ==> SlRequired(l).value >= x.value
    ensures forall x <- [l.stops, l.freeze, l.tp] :: x.Some? ==> TpRequired(l).value >= x.value
  {
    var s, t := [l.stops, l.freeze] + [l.sl], [l.stops, l.freeze] + [l.tp];
    assert s[0] == l.stops && s[1] == l.freeze && s[2] == l.sl;
    assert t[0] == l.stops && t[1] == l.freeze && t[2] == l.tp;
    assert s == [l.stops, l.freeze, l.sl] && t == [l.stops, l.freeze, l.tp];
  }

  /** A distance is one of the levels that bind its side, or the other side's level when none does. */
  lemma RequiredIsReported(l: Levels)
    requires l != Levels(None, None, None, None)
    ensures SlRequired(l) in (if l.stops.Some? || l.freeze.Some? || l.sl.Some? then {l.stops, l.freeze, l.sl} else {l.tp})
    ensures TpRequired(l) in (if l.stops.Some? || l.freeze.Some? || l.tp.Some? then {l.stops, l.freeze, l.tp} else {l.sl})
  {
    RequiredIsOne(l.stops, l.freeze, l.sl, l.tp);
    RequiredIsOne(l.stops, l.freeze, l.tp, l.sl);
  }

  lemma RequiredIsOne(a: Option<real>, b: Option<real>, own: Option<real>, other: Option<real>)
    ensures Required([a, b], own, other) in (if a.Some? || b.Some? || own.Some? then {a, b, own} else {other})
  {
    var s := [a, b] + [own];
    assert s == [a, b, own];
    assert s[0] in s && s[1] in s && s[2] in s;
    var m := MaxOf(s);
    if m.Some? {
      var i :| 0 <= i < |s| && s[i] == m;
      assert m == a || m == b || m == own;
    }
  }

  // ------------------------------------------------------------- rebasing

  /** `unit` is the price grid of the broker's digits; the required distances are prices. */
  datatype Constraints = Constraints(point: real, unit: real, slRequired: real, tpRequired: real)

  datatype Plan = Plan(entry: real, stop: real, target: real)

  datatype Rebased = Rebased(entry: real, stop: real, target: real, slDistance: real, tpDistance: real)

  predicate Usable(c: Constraints) {
    c.unit > 0.0 && c.slRequired >= 0.0 && c.tpRequired >= 0.0
  }

  /** The quote side a stop and a target are measured from. */
  function SlReference(d: Direction, bid: real, ask: real): real {
    if d.Buy? then bid else ask
  }

  function TpReference(d: Direction, bid: real, ask: real): real {
    if d.Buy? then ask else bid
  }

  function SlDistance(plan: Plan, c: Constraints): real {
    Max(Abs(plan.entry - plan.stop), c.slRequired + c.point)
  }

  function TpDistance(plan: Plan, c: Constraints): real {
    Max(Abs(plan.target - plan.entry), c.tpRequired + c.point)
  }

  function Rebase(plan: Plan, d: Direction, bid: real, ask: real, c: Constraints): Option<Rebased>
    requires Usable(c)
  {
    if bid <= 0.0 || ask <= 0.0 || c.point <= 0.0 then None
    else if plan.entry == plan.stop || plan.target == plan.entry then None
    else
      var slRef, tpRef := SlReference(d, bid, ask), TpReference(d, bid, ask);
      var stop := RoundTo(if d.Buy? then slRef - SlDistance(plan, c) else slRef + SlDistance(plan, c), c.unit);
      var target := RoundTo(if d.Buy? then tpRef + TpDistance(plan, c) else tpRef - TpDistance(plan, c), c.unit);
      var slDistance := if d.Buy? then slRef - stop else stop - slRef;
      var tpDistance := if d.Buy? then target - tpRef else tpRef - target;
      if slDistance <= 0.0 || tpDistance <= 0.0 then None
      else Some(Rebased(RoundTo(if d.Buy? then ask else bid, c.unit), stop, target, slDistance, tpDistance))
  }

  /** The rebased stop and target clear both minimum distances by half a point. */
  predicate ClearsByHalfPoint(r: Rebased, c: Constraints) {
    r.slDistance >= c.slRequired + c.point / 2.0 && r.tpDistance >= c.tpRequired + c.point / 2.0
  }

  /** The stop lies strictly on the losing and the target on the winning side of the whole quote. */
  predicate OutsideQuote(r: Rebased, d: Direction, bid: real, ask: real) {
    if d.Buy? then r.stop < bid && r.stop < ask && bid < r.target && ask < r.target
    else r.target < bid && r.target < ask && bid < r.stop && ask < r.stop
  }

  /** The distance below the quote leaves more than half a grid unit above zero. */
  predicate RoomBelow(quote: real, distance: real, c: Constraints) {
    quote - distance > c.unit / 2.0
  }

  /** Rounding to the grid gives a positive price exactly above half a unit. */
  lemma RoundToPositiveIff(x: real, unit: real)
    requires unit > 0.0
    ensures RoundTo(x, unit) > 0.0 <==> x > unit / 2.0
  {
    var q := x / unit;
    var n := RoundInt(q);
    assert q * unit == x;
    ScaleIff(q, 0.5, unit);
    assert n > 0 <==> q > 0.5 by {
      if q <= 0.5 {
        RoundIntMonotone(q, 0.5);
        assert RoundInt(0.5) == 0;
      }
    }
    ScaleIff(n as real, 0.0, unit);
  }

  /**
   * With a price grid no coarser than the point, rebasing a real plan on a
   * grid quote always succeeds, keeps the planned distances up to rounding and
   * clears the minimums.  Both prices are positive, and sizing accepts the
   * order's stop, exactly when the distance below the quote leaves room.
   */
  lemma RebasedOrderIsProtective(plan: Plan, d: Direction, bid: real, ask: real, c: Constraints)
    requires Usable(c) && c.unit <= c.point && 0.0 < bid <= ask && OnGrid(bid, c.unit) && OnGrid(ask, c.unit)
    requires plan.entry != plan.stop && plan.target != plan.entry
    ensures var r := Rebase(plan, d, bid, ask, c);
      && r.Some?
      && ClearsByHalfPoint(r.value, c)
      && OutsideQuote(r.value, d, bid, ask)
      && r.value.slDistance >= Abs(plan.entry - plan.stop) - c.unit / 2.0
      && r.value.tpDistance >= Abs(plan.target - plan.entry) - c.unit / 2.0
      && r.value.entry == (if d.Buy? then ask else bid)
      && LossDistance(d, r.value.entry, r.value.stop) > 0.0
      && (r.value.stop > 0.0 <==> d.Sell? || RoomBelow(bid, SlDistance(plan, c), c))
      && (r.value.target > 0.0 <==> d.Buy? || RoomBelow(bid, TpDistance(plan, c), c))
  {
    RoundToFixed(if d.Buy? then ask else bid, c.unit);
    if d.Buy? {
      RoundToPositiveIff(bid - SlDistance(plan, c), c.unit);
    } else {
      RoundToPositiveIff(bid - TpDistance(plan, c), c.unit);
    }
  }

  /**
   * Whatever the grid, the stop and target of a rebased order stand at the planned
   * distance, or one point beyond the broker's minimum where that is larger, to within
   * half a grid unit: a buy's stop below the bid and target above the ask, a sell's
   * stop above the ask and target below the bid.
   */
  lemma RebasedDistancesAreTight(plan: Plan, d: Direction, bid: real, ask: real, c: Constraints)
    requires Usable(c) && Rebase(plan, d, bid, ask, c).Some?
    ensures var r, half := Rebase(plan, d, bid, ask, c).value, c.unit / 2.0;
      var sl := if Abs(plan.entry - plan.stop) >= c.slRequired + c.point then Abs(plan.entry - plan.stop)
                else c.slRequired + c.point;
      var tp := if Abs(plan.target - plan.entry) >= c.tpRequired + c.point then Abs(plan.target - plan.entry)
                else c.tpRequired + c.point;
      && sl - half <= r.slDistance <= sl + half && tp - half <= r.tpDistance <= tp + half
      && OnGrid(r.entry, c.unit) && OnGrid(r.stop, c.unit) && OnGrid(r.target, c.unit)
      && (if d.Buy? then r.stop == bid - r.slDistance && r.target == ask + r.tpDistance
          else r.stop == ask + r.slDistance && r.target == bid - r.tpDistance)
  {
  }

  /** Unusable quotes, points and plans without a stop or target are refused. */
  lemma BadInputIsRefused(plan: Plan, d: Direction, bid: real, ask: real, c: Constraints)
    requires Usable(c)
    ensures Rebase(plan, d, bid, ask, c).Some? ==>
              && bid > 0.0 && ask > 0.0 && c.point > 0.0 && plan.entry != plan.stop && plan.target != plan.entry
              && Rebase(plan, d, bid, ask, c).value.slDistance > 0.0 && Rebase(plan, d, bid, ask, c).value.tpDistance > 0.0
  {
  }

  /** Sizing accepts the rebased stop exactly when a buy's stop distance leaves room above zero. */
  lemma RebasedStopIsUsableIff(plan: Plan, d: Direction, bid: real, ask: real, c: Constraints,
                               balance: Option<real>, trade: Option<real>, total: Option<real>)
    requires Premise(plan, bid, ask, c) && c.unit <= c.point
    ensures var r := Rebase(plan, d, bid, ask, c);
      && r.Some?
      && (OrderSizing.StopUsable(OrderSizing.Request(d, r.value.entry, r.value.stop, balance, trade, total))
          <==> d.Sell? || RoomBelow(bid, SlDistance(plan, c), c))
  {
    RebasedOrderIsProtective(plan, d, bid, ask, c);
  }

  /** A rebased stop at least half a cent from the quote can only be trailed in the order's favour. */
  lemma RebasedStopRatchets(plan: Plan, d: Direction, bid: real, ask: real, c: Constraints, cfg: TrailingStop.Config)
    requires Premise(plan, bid, ask, c) && c.unit <= c.point
    requires Rebase(plan, d, bid, ask, c).Some? && Rebase(plan, d, bid, ask, c).value.slDistance >= 0.005
    requires TrailingStop.Quoted(if d.Buy? then ask else bid)
    ensures var r := Rebase(plan, d, bid, ask, c).value;
      TrailingStop.RoundsInFavour(TrailingStop.NewBaseline(d, r.entry, r.stop), r.stop, cfg)
  {
    var r := Rebase(plan, d, bid, ask, c).value;
    RebasedOrderIsProtective(plan, d, bid, ask, c);
    TrailingStop.DistantStopRoundsInFavour(TrailingStop.NewBaseline(d, r.entry, r.stop), r.stop, cfg);
  }

  /**
   * The half-point clearance holds on every grid quote and real plan exactly
   * when the grid is no coarser than the point.
   */
  lemma ClearanceIff(c: Constraints)
    requires c.unit > 0.0 && c.point > 0.0
    ensures (forall plan: Plan, d: Direction, bid: real, ask: real, sl: real, tp: real ::
              MustClear(plan, d, bid, ask, c.(slRequired := sl, tpRequired := tp)))
       <==> c.unit <= c.point
  {
    if c.unit <= c.point {
      forall plan: Plan, d: Direction, bid: real, ask: real, sl: real, tp: real
        ensures MustClear(plan, d, bid, ask, c.(slRequired := sl, tpRequired := tp)) {
        var c' := c.(slRequired := sl, tpRequired := tp);
        if Premise(plan, bid, ask, c') {
          RebasedOrderIsProtective(plan, d, bid, ask, c');
        }
      }
    } else {
      CoarseGridFails(c);
    }
  }

  ghost predicate Premise(plan: Plan, bid: real, ask: real, c: Constraints) {
    && Usable(c) && 0.0 < bid <= ask && OnGrid(bid, c.unit) && OnGrid(ask, c.unit)
    && plan.entry != plan.stop && plan.target != plan.entry
  }

  ghost predicate MustClear(plan: Plan, d: Direction, bid: real, ask: real, c: Constraints) {
    Premise(plan, bid, ask, c) ==>
      Rebase(plan, d, bid, ask, c).Some? && ClearsByHalfPoint(Rebase(plan, d, bid, ask, c).value, c)
  }

  /** A minimum just under one and a half grid units is rounded away on a coarse grid. */
  lemma CoarseGridFails(c: Constraints)
    requires c.point > 0.0 && c.unit > c.point
    ensures exists plan: Plan, d: Direction, bid: real, ask: real, sl: real, tp: real ::
              !MustClear(plan, d, bid, ask, c.(slRequired := sl, tpRequired := tp))
  {
    var u := c.unit;
    var slack := (u - c.point) / 4.0;
    var sl := 1.5 * u - slack - c.point;
    var c' := c.(slRequired := sl, tpRequired := 0.0);
    var quote := 4.0 * u;
    var plan := Plan(quote, quote - u, quote + u);
    OnGridMultiple(4, u);
    assert OnGrid(quote, u);
    assert SlDistance(plan, c') == 1.5 * u - slack;
    var x := quote - SlDistance(plan, c');
    assert x == 2.5 * u + slack;
    NearestAbove(x, u);
    assert RoundTo(x, u) == 3.0 * u;
    assert !MustClear(plan, Buy, quote, quote, c');
  }

  lemma NearestAbove(x: real, u: real)
    requires u > 0.0 && 2.5 * u < x < 3.0 * u
    ensures RoundTo(x, u) == 3.0 * u
  {
    var q := x / u;
    assert 2.5 < q < 3.0 by {
      assert q * u == x;
      ScaleIff(q, 2.5, u);
      ScaleIff(3.0, q, u);
    }
    RoundIntBetween(q, 3);
  }

  lemma ScaleIff(a: real, b: real, u: real)
    requires u > 0.0
    ensures a <= b <==> a * u <= b * u
  {
    if a > b {
      assert (a - b) * u > 0.0;
    } else {
      assert (b - a) * u >= 0.0;
    }
  }
}
