// Sizing one order inside the per-trade and aggregate risk budgets, and the
// lot normalisation that follows on the way to the broker.
module OrderSizing {
  import opened Options
  import opened Market
  import opened AggregateRisk

  /** None is an account or percentage field that is not a number. */
  datatype Request = Request(
    direction: Direction, entry: real, stop: real,
    balance: Option<real>, tradePercent: Option<real>, aggregatePercent: Option<real>)

  datatype Sizing = Sizing(
    lotSize: real, existingRisk: real, newRisk: real, aggregateRisk: real,
    aggregateLimit: real, tradeLimit: real, riskBudget: real, positionCount: nat)

  predicate NumbersUsable(req: Request) {
    Positive(req.balance) && Positive(req.tradePercent) && Positive(req.aggregatePercent)
  }

  /** The entry and stop are positive prices and the stop is on the losing side. */
  predicate StopUsable(req: Request) {
    req.entry > 0.0 && req.stop > 0.0 && LossDistance(req.direction, req.entry, req.stop) > 0.0
  }

  function RiskPerLot(req: Request, spec: RiskSpec): (r: real)
    requires ValidSpec(spec) && StopUsable(req)
    ensures r > 0.0
  {
    var ticks := LossDistance(req.direction, req.entry, req.stop) / spec.tickSize;
    assert ticks * spec.tickSize > 0.0;
    ticks * spec.tickValue
  }

  function AggregateLimit(req: Request): real
    requires NumbersUsable(req)
  {
    req.balance.value * req.aggregatePercent.value / 100.0
  }

  function TradeLimit(req: Request): real
    requires NumbersUsable(req)
  {
    req.balance.value * req.tradePercent.value / 100.0
  }

  /** The request in account money; the amounts are zero where they do not exist. */
  datatype Terms = Terms(numbersUsable: bool, stopUsable: bool, aggregateLimit: real, tradeLimit: real, perLot: real)

  function TermsOf(req: Request, spec: RiskSpec): (t: Terms)
    requires ValidSpec(spec)
    ensures t.stopUsable ==> t.perLot > 0.0
  {
    Terms(NumbersUsable(req), StopUsable(req),
          if NumbersUsable(req) then AggregateLimit(req) else 0.0,
          if NumbersUsable(req) then TradeLimit(req) else 0.0,
          if StopUsable(req) then RiskPerLot(req, spec) else 0.0)
  }

  function RiskBudget(t: Terms, existing: real): real {
    Min(t.tradeLimit, t.aggregateLimit - existing)
  }

  // ------------------------------------------------------------- the lot grid

  function LotAt(spec: RiskSpec, k: int): real {
    spec.volumeMin + k as real * spec.volumeStep
  }

  ghost predicate OnLotGrid(spec: RiskSpec, lot: real) {
    exists k: nat :: lot == LotAt(spec, k)
  }

  /** Whole steps that fit in `x`. */
  function StepsIn(x: real, step: real): (k: int)
    requires step > 0.0
    ensures k as real * step <= x < k as real * step + step
  {
    assert x / step * step == x;
    FloorBound(x / step, (x / step).Floor, x, step);
    (x / step).Floor
  }

  lemma FloorBound(q: real, n: int, x: real, step: real)
    requires step > 0.0 && q * step == x && n as real <= q < n as real + 1.0
    ensures n as real * step <= x < n as real * step + step
  {
    var rest := q - n as real;
    assert rest * step == x - n as real * step;
    assert 0.0 <= rest * step < step by {
      ScaledStrictly(rest, 1.0, step);
    }
  }

  lemma Scaled(a: real, b: real, step: real)
    requires a <= b && step > 0.0
    ensures a * step <= b * step
  {
  }

  lemma ScaledStrictly(a: real, b: real, step: real)
    requires a < b && step > 0.0
    ensures a * step < b * step
  {
  }

  lemma LotAtMonotone(spec: RiskSpec, j: int, k: int)
    requires spec.volumeStep > 0.0
    ensures j <= k <==> LotAt(spec, j) <= LotAt(spec, k)
  {
    if j <= k {
      Scaled(j as real, k as real, spec.volumeStep);
    } else {
      ScaledStrictly(k as real, j as real, spec.volumeStep);
    }
  }

  /** The number of grid steps in the smaller of the cap and the quotient. */
  function GridIndex(spec: RiskSpec, raw: real): (k: int)
    requires ValidSpec(spec)
    ensures LotAt(spec, k) <= raw < LotAt(spec, k + 1)
    ensures raw >= spec.volumeMin ==> k >= 0
  {
    var k := StepsIn(raw - spec.volumeMin, spec.volumeStep);
    if k < 0 then
      assert (k + 1) as real * spec.volumeStep <= 0.0;
      k
    else k
  }

  // ------------------------------------------------------------------- sizing

  /** A lot on the broker's grid whose risk at `perLot` fits the budget. */
  ghost predicate Fits(spec: RiskSpec, perLot: real, budget: real, lot: real) {
    OnLotGrid(spec, lot) && lot <= spec.volumeMax && perLot * lot <= budget
  }

  /** `lot` fits and no larger lot does. */
  ghost predicate LargestThatFits(spec: RiskSpec, perLot: real, budget: real, lot: real) {
    Fits(spec, perLot, budget, lot) && forall other :: Fits(spec, perLot, budget, other) ==> other <= lot
  }

  /** The quotient the machine computed is not below the exact one. */
  predicate NeverLow(quotient: real, budget: real, perLot: real)
    requires perLot > 0.0
  {
    quotient >= budget / perLot
  }

  /** The order was admitted: one lot that fits what the open tickets leave. */
  ghost predicate Admitted(t: Terms, spec: RiskSpec, existing: real, lot: real) {
    && t.numbersUsable && t.stopUsable
    && Fits(spec, t.perLot, RiskBudget(t, existing), lot)
    && existing + t.perLot * lot <= t.aggregateLimit
  }

  /** What sizing returns, given the open exposure `open` and the machine's division. */
  ghost predicate IsSizing(open: Result<(real, nat)>, t: Terms, spec: RiskSpec, divide: (real, real) -> real,
                           r: Result<Sizing>)
    requires t.stopUsable ==> t.perLot > 0.0
  {
    if !t.numbersUsable then r == Failure(RiskDataUnavailable)
    else if open.Failure? then r == Failure(open.error)
    else if RiskBudget(t, open.value.0) <= 0.0 then r == Failure(NoRemainingBudget)
    else if !t.stopUsable then r == Failure(RiskDataUnavailable)
    else
      var existing, budget := open.value.0, RiskBudget(t, open.value.0);
      && (r.Success? ==>
            && Admitted(t, spec, existing, r.value.lotSize)
            && r.value == Sizing(r.value.lotSize, existing, t.perLot * r.value.lotSize,
                                 existing + t.perLot * r.value.lotSize, t.aggregateLimit, t.tradeLimit, budget,
                                 open.value.1))
      && (r.Failure? ==> r.error == MinimumLot)
      && IsLot(spec, t.perLot, budget, divide(budget, t.perLot), if r.Success? then Some(r.value.lotSize) else None)
  }

  /** The lot chosen for a budget and a computed quotient; None when nothing fits. */
  ghost predicate IsLot(spec: RiskSpec, perLot: real, budget: real, quotient: real, lot: Option<real>)
    requires perLot > 0.0
  {
    && (lot.Some? ==> Fits(spec, perLot, budget, lot.value))
    && (NeverLow(quotient, budget, perLot) ==>
          && (lot.Some? <==> Fits(spec, perLot, budget, spec.volumeMin))
          && (lot.Some? ==> LargestThatFits(spec, perLot, budget, lot.value)))
  }

  // --------------------------------------------- sizing in the request's terms

  /** `amount` is what `lot` loses between entry and stop. */
  predicate Costs(req: Request, spec: RiskSpec, lot: real, amount: real) {
    amount * spec.tickSize == LossDistance(req.direction, req.entry, req.stop) * spec.tickValue * lot
  }

  /** A loss that neither percentage of the balance forbids. */
  predicate Affordable(req: Request, existing: real, amount: real)
    requires NumbersUsable(req)
  {
    && amount * 100.0 <= req.balance.value * req.tradePercent.value
    && (existing + amount) * 100.0 <= req.balance.value * req.aggregatePercent.value
  }

  /** A grid lot whose loss is affordable. */
  ghost predicate AffordableLot(req: Request, spec: RiskSpec, existing: real, lot: real)
    requires NumbersUsable(req)
  {
    && OnLotGrid(spec, lot) && lot <= spec.volumeMax
    && exists amount :: Costs(req, spec, lot, amount) && Affordable(req, existing, amount)
  }

  /** Both limits, the loss and the sums that are published with a lot. */
  predicate Published(req: Request, spec: RiskSpec, s: Sizing)
    requires NumbersUsable(req)
  {
    && Costs(req, spec, s.lotSize, s.newRisk) && Affordable(req, s.existingRisk, s.newRisk)
    && s.aggregateRisk == s.existingRisk + s.newRisk
    && s.tradeLimit * 100.0 == req.balance.value * req.tradePercent.value
    && s.aggregateLimit * 100.0 == req.balance.value * req.aggregatePercent.value
    && s.riskBudget == Min(s.tradeLimit, s.aggregateLimit - s.existingRisk)
  }

  ghost predicate NeverRoundsDown(divide: (real, real) -> real) {
    forall a: real, b: real | b > 0.0 :: divide(a, b) >= a / b
  }

  /**
   * What sizing promises in the request's own fields: the cause of every refusal, an
   * affordable grid lot otherwise, and the largest one for a division that never
   * falls below the exact quotient.
   */
  ghost predicate SizedFor(open: Result<(real, nat)>, req: Request, spec: RiskSpec, divide: (real, real) -> real,
                           r: Result<Sizing>)
  {
    if !NumbersUsable(req) then r == Failure(RiskDataUnavailable)
    else if open.Failure? then r == Failure(open.error)
    else if open.value.0 * 100.0 >= req.balance.value * req.aggregatePercent.value then r == Failure(NoRemainingBudget)
    else if req.entry <= 0.0 || req.stop <= 0.0 || LossDistance(req.direction, req.entry, req.stop) <= 0.0
    then r == Failure(RiskDataUnavailable)
    else
      && (r.Success? ==>
            && r.value.existingRisk == open.value.0 && r.value.positionCount == open.value.1
            && AffordableLot(req, spec, open.value.0, r.value.lotSize) && Published(req, spec, r.value))
      && (r.Failure? ==> r.error == MinimumLot)
      && (NeverRoundsDown(divide) ==>
            && (r.Success? <==> AffordableLot(req, spec, open.value.0, spec.volumeMin))
            && (r.Success? ==>
                  forall lot :: AffordableLot(req, spec, open.value.0, lot) ==> lot <= r.value.lotSize))
  }

  lemma PerLotCosts(req: Request, spec: RiskSpec, lot: real)
    requires ValidSpec(spec) && StopUsable(req)
    ensures Costs(req, spec, lot, RiskPerLot(req, spec) * lot)
    ensures forall amount :: Costs(req, spec, lot, amount) ==> amount == RiskPerLot(req, spec) * lot
  {
    var distance := LossDistance(req.direction, req.entry, req.stop);
    var ticks := distance / spec.tickSize;
    assert ticks * spec.tickSize == distance;
    Reorder(ticks, spec.tickValue, lot, spec.tickSize);
    forall amount | Costs(req, spec, lot, amount) ensures amount == RiskPerLot(req, spec) * lot {
      Cancel(amount, RiskPerLot(req, spec) * lot, spec.tickSize);
    }
  }

  lemma Cancel(a: real, b: real, size: real)
    requires size > 0.0 && a * size == b * size
    ensures a == b
  {
    if a < b { ScaledStrictly(a, b, size); } else if b < a { ScaledStrictly(b, a, size); }
  }

  lemma AffordableIff(req: Request, existing: real, amount: real)
    requires NumbersUsable(req)
    ensures Affordable(req, existing, amount) <==> amount <= Min(TradeLimit(req), AggregateLimit(req) - existing)
  {
  }

  /** Affordable grid lots are those that fit the budget of the terms. */
  lemma FitsIffAffordable(req: Request, spec: RiskSpec, existing: real, lot: real)
    requires ValidSpec(spec) && NumbersUsable(req) && StopUsable(req)
    ensures var t := TermsOf(req, spec);
      Fits(spec, t.perLot, RiskBudget(t, existing), lot) <==> AffordableLot(req, spec, existing, lot)
  {
    PerLotCosts(req, spec, lot);
    AffordableIff(req, existing, RiskPerLot(req, spec) * lot);
  }

  lemma SizingIsSizedFor(open: Result<(real, nat)>, req: Request, spec: RiskSpec, divide: (real, real) -> real,
                         r: Result<Sizing>)
    requires ValidSpec(spec) && IsSizing(open, TermsOf(req, spec), spec, divide, r)
    ensures SizedFor(open, req, spec, divide, r)
  {
    if NumbersUsable(req) && open.Success? && StopUsable(req) {
      var t, existing := TermsOf(req, spec), open.value.0;
      BudgetLeftIff(req, spec, existing);
      if RiskBudget(t, existing) > 0.0 {
        forall lot ensures Fits(spec, t.perLot, RiskBudget(t, existing), lot) <==> AffordableLot(req, spec, existing, lot) {
          FitsIffAffordable(req, spec, existing, lot);
        }
        if r.Success? {
          AdmittedIsPublished(req, spec, r.value);
        }
      }
    } else if NumbersUsable(req) && open.Success? {
      BudgetLeftIff(req, spec, open.value.0);
    }
  }

  lemma AdmittedIsPublished(req: Request, spec: RiskSpec, s: Sizing)
    requires ValidSpec(spec) && NumbersUsable(req) && StopUsable(req)
    requires s.newRisk == RiskPerLot(req, spec) * s.lotSize && s.newRisk <= s.riskBudget
    requires s.aggregateRisk == s.existingRisk + s.newRisk
    requires s.tradeLimit == TradeLimit(req) && s.aggregateLimit == AggregateLimit(req)
    requires s.riskBudget == Min(s.tradeLimit, s.aggregateLimit - s.existingRisk)
    ensures Published(req, spec, s)
  {
    PerLotCosts(req, spec, s.lotSize);
    AffordableIff(req, s.existingRisk, s.newRisk);
  }

  lemma BudgetLeftIff(req: Request, spec: RiskSpec, existing: real)
    requires ValidSpec(spec) && NumbersUsable(req)
    ensures RiskBudget(TermsOf(req, spec), existing) > 0.0
       <==> existing * 100.0 < req.balance.value * req.aggregatePercent.value
  {
    assert req.balance.value * req.tradePercent.value > 0.0;
  }

  /**
   * Sizes one order.  `divide` is whatever quotient the machine computes:
   * every result is safe, and it is the largest safe one whenever the quotient
   * is not below the exact one.
   */
  method SizeOrder(rows: seq<Row>, req: Request, spec: RiskSpec, divide: (real, real) -> real)
    returns (r: Result<Sizing>)
    requires ValidSpec(spec)
    ensures exists open: Result<(real, nat)> ::
      && IsOpenRisk(rows, RiskOf(spec), open) && IsSizing(open, TermsOf(req, spec), spec, divide, r)
      && SizedFor(open, req, spec, divide, r)
  {
    RiskOfIsNonnegative(spec);
    var open := AggregateOpenRisk(rows, RiskOf(spec));
    r := SizeWithin(open, TermsOf(req, spec), spec, divide);
    SizingIsSizedFor(open, req, spec, divide, r);
  }

  method SizeWithin(open: Result<(real, nat)>, t: Terms, spec: RiskSpec, divide: (real, real) -> real)
    returns (r: Result<Sizing>)
    requires ValidSpec(spec) && (t.stopUsable ==> t.perLot > 0.0)
    ensures IsSizing(open, t, spec, divide, r)
  {
    if !t.numbersUsable {
      return Failure(RiskDataUnavailable);
    }
    if open.Failure? {
      return Failure(open.error);
    }
    var (used, count) := open.value;
    var budget := RiskBudget(t, used);
    if budget <= 0.0 {
      return Failure(NoRemainingBudget);
    }
    if !t.stopUsable {
      return Failure(RiskDataUnavailable);
    }
    var volume := LotWithin(spec, t.perLot, budget, divide(budget, t.perLot));
    if volume.None? {
      return Failure(MinimumLot);
    }
    var newRisk := t.perLot * volume.value;
    assert newRisk <= budget by {
      assert Fits(spec, t.perLot, budget, volume.value);
    }
    assert budget <= t.aggregateLimit - used;
    r := if used + newRisk > t.aggregateLimit then Failure(AggregateBudget)
         else Success(Sizing(volume.value, used, newRisk, used + newRisk, t.aggregateLimit, t.tradeLimit, budget, count));
  }

  /** Floors the capped quotient to the grid and repairs it; None when the minimum lot is too much. */
  method LotWithin(spec: RiskSpec, perLot: real, budget: real, quotient: real) returns (lot: Option<real>)
    requires ValidSpec(spec) && perLot > 0.0
    ensures IsLot(spec, perLot, budget, quotient, lot)
  {
    var raw := Min(quotient, spec.volumeMax);
    if raw < spec.volumeMin {
      LowQuotientFitsNothing(spec, perLot, budget, quotient);
      return None;
    }
    var volume, k := StepDown(spec, perLot, budget, GridIndex(spec, raw));
    if perLot * volume > budget {
      MinimumTooMuch(spec, perLot, budget, quotient);
      return None;
    }
    FoundLotIsLot(spec, perLot, budget, quotient, k);
    lot := Some(volume);
  }

  lemma LowQuotientFitsNothing(spec: RiskSpec, perLot: real, budget: real, quotient: real)
    requires ValidSpec(spec) && perLot > 0.0 && Min(quotient, spec.volumeMax) < spec.volumeMin
    ensures IsLot(spec, perLot, budget, quotient, None)
  {
    MinimumFitsIff(spec, perLot, budget);
    if perLot * spec.volumeMin <= budget {
      QuotientCovers(budget, perLot, spec.volumeMin);
    }
  }

  lemma FoundLotIsLot(spec: RiskSpec, perLot: real, budget: real, quotient: real, k: nat)
    requires ValidSpec(spec) && perLot > 0.0
    requires spec.volumeMin <= Min(quotient, spec.volumeMax) && k <= GridIndex(spec, Min(quotient, spec.volumeMax))
    requires perLot * LotAt(spec, k) <= budget
    requires forall j: nat :: k < j <= GridIndex(spec, Min(quotient, spec.volumeMax)) ==> perLot * LotAt(spec, j) > budget
    ensures IsLot(spec, perLot, budget, quotient, Some(LotAt(spec, k)))
  {
    LotAtMonotone(spec, k, GridIndex(spec, Min(quotient, spec.volumeMax)));
    SmallerFitsToo(spec, perLot, budget, k);
    if NeverLow(quotient, budget, perLot) {
      NothingLargerFits(spec, perLot, budget, quotient, k);
    }
  }

  lemma MinimumTooMuch(spec: RiskSpec, perLot: real, budget: real, quotient: real)
    requires ValidSpec(spec) && perLot > 0.0 && perLot * LotAt(spec, 0) > budget
    ensures IsLot(spec, perLot, budget, quotient, None)
  {
    MinimumFitsIff(spec, perLot, budget);
  }

  lemma SmallerFitsToo(spec: RiskSpec, perLot: real, budget: real, k: nat)
    requires ValidSpec(spec) && perLot > 0.0 && LotAt(spec, k) <= spec.volumeMax && perLot * LotAt(spec, k) <= budget
    ensures Fits(spec, perLot, budget, LotAt(spec, k)) && Fits(spec, perLot, budget, spec.volumeMin)
  {
    LotAtMonotone(spec, 0, k);
    Scaled(spec.volumeMin, LotAt(spec, k), perLot);
    MinimumFitsIff(spec, perLot, budget);
  }

  /** The repair loop: step down until the lot fits or only the minimum is left. */
  method StepDown(spec: RiskSpec, perLot: real, budget: real, start: nat) returns (volume: real, k: nat)
    requires ValidSpec(spec)
    ensures k <= start && volume == LotAt(spec, k)
    ensures perLot * volume <= budget || k == 0
    ensures forall j: nat :: k < j <= start ==> perLot * LotAt(spec, j) > budget
  {
    k := start;
    volume := LotAt(spec, k);
    while perLot * volume > budget && volume > spec.volumeMin
      invariant k <= start && volume == LotAt(spec, k)
      invariant forall j: nat :: k < j <= start ==> perLot * LotAt(spec, j) > budget
      decreases k
    {
      assert k > 0;
      k := k - 1;
      volume := LotAt(spec, k);
    }
    if k > 0 {
      LotAtMonotone(spec, k, 0);
    }
  }

  lemma QuotientCovers(budget: real, perLot: real, lot: real)
    requires perLot > 0.0 && perLot * lot <= budget
    ensures lot <= budget / perLot
  {
    var q := budget / perLot;
    assert q * perLot == budget;
    if lot > q {
      ScaledStrictly(q, lot, perLot);
    }
  }

  lemma MinimumFitsIff(spec: RiskSpec, perLot: real, budget: real)
    requires ValidSpec(spec)
    ensures Fits(spec, perLot, budget, spec.volumeMin) <==> perLot * spec.volumeMin <= budget
  {
    assert spec.volumeMin == LotAt(spec, 0);
  }

  lemma NothingLargerFits(spec: RiskSpec, perLot: real, budget: real, quotient: real, k: nat)
    requires ValidSpec(spec) && perLot > 0.0 && NeverLow(quotient, budget, perLot)
    requires k <= GridIndex(spec, Min(quotient, spec.volumeMax))
    requires forall j: nat :: k < j <= GridIndex(spec, Min(quotient, spec.volumeMax)) ==> perLot * LotAt(spec, j) > budget
    ensures forall other :: Fits(spec, perLot, budget, other) ==> other <= LotAt(spec, k)
  {
    var top := GridIndex(spec, Min(quotient, spec.volumeMax));
    forall other | Fits(spec, perLot, budget, other) ensures other <= LotAt(spec, k) {
      var j: nat :| other == LotAt(spec, j);
      QuotientCovers(budget, perLot, other);
      LotAtMonotone(spec, top + 1, j);
      assert j <= top;
      LotAtMonotone(spec, j, k);
    }
  }

  // ------------------------------------------------------------ normalisation

  datatype Lot = Lot(size: real) | Rejected

  /** The lot actually sent: floored to the grid inside [min, max]. */
  function NormaliseLot(lot: real, min: real, step: real, max: real): Lot {
    if lot <= 0.0 || step <= 0.0 || min <= 0.0 || max < min || lot < min then Rejected
    else
      var capped := Min(lot, max);
      var size := min + StepsIn(capped - min, step) as real * step;
      if size < min || size > capped then Rejected else Lot(size)
  }

  /**
   * Normalisation refuses exactly the lots the broker grid cannot carry; any
   * other lot becomes the largest grid lot not above it or the maximum.
   */
  lemma NormaliseLotFloors(lot: real, spec: RiskSpec)
    requires ValidSpec(spec)
    ensures var n := NormaliseLot(lot, spec.volumeMin, spec.volumeStep, spec.volumeMax);
      && (n.Lot? <==> lot >= spec.volumeMin)
      && (n.Lot? ==> OnLotGrid(spec, n.size) && n.size <= Min(lot, spec.volumeMax))
      && (n.Lot? ==> forall k: nat :: LotAt(spec, k) <= Min(lot, spec.volumeMax) ==> LotAt(spec, k) <= n.size)
  {
    if lot >= spec.volumeMin {
      var capped := Min(lot, spec.volumeMax);
      var k := GridIndex(spec, capped);
      LotAtMonotone(spec, 0, k);
      assert NormaliseLot(lot, spec.volumeMin, spec.volumeStep, spec.volumeMax) == Lot(LotAt(spec, k));
      forall j: nat | LotAt(spec, j) <= capped ensures LotAt(spec, j) <= LotAt(spec, k) {
        LotAtMonotone(spec, k + 1, j);
        LotAtMonotone(spec, j, k);
      }
    }
  }

  /** A sized lot reaches the broker unchanged. */
  lemma SizedLotIsSentUnchanged(spec: RiskSpec, perLot: real, budget: real, lot: real)
    requires ValidSpec(spec) && Fits(spec, perLot, budget, lot)
    ensures NormaliseLot(lot, spec.volumeMin, spec.volumeStep, spec.volumeMax) == Lot(lot)
  {
    var k: nat :| lot == LotAt(spec, k);
    LotAtMonotone(spec, 0, k);
    NormaliseLotFloors(lot, spec);
  }
}
