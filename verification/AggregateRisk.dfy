// Loss-to-stop exposure of the open tickets and the lot size that fits in
// what is left of the budget.
module AggregateRisk {
  import opened Options
  import opened Market
  import opened Sets

  datatype RiskError =
    | RiskDataUnavailable
    | OpenPositionUnverifiable
    | NoRemainingBudget
    | MinimumLot
    | VolumeConstraint
    | AggregateBudget

  datatype Result<+T> = Success(value: T) | Failure(error: RiskError)

  /** Broker economics per lot and the volume grid, as accepted by the metadata reader. */
  datatype RiskSpec = RiskSpec(tickSize: real, tickValue: real, volumeMin: real, volumeStep: real, volumeMax: real)

  predicate ValidSpec(spec: RiskSpec) {
    && spec.tickSize > 0.0 && spec.tickValue > 0.0
    && spec.volumeStep > 0.0 && 0.0 < spec.volumeMin <= spec.volumeMax
  }

  /** A reported position; None is a field that is not a number or not a known side. */
  datatype Row =
    | NotAMapping
    | Row(ticket: string, direction: Option<Direction>, entry: Option<real>, stop: Option<real>, volume: Option<real>)

  // ------------------------------------------------------------- one ticket

  function RowError(row: Row): Option<RiskError> {
    if row.NotAMapping? then Some(RiskDataUnavailable)
    else if row.ticket == "" || row.direction.None? || !Positive(row.entry) || !Positive(row.stop) || !Positive(row.volume)
    then Some(OpenPositionUnverifiable)
    else None
  }

  predicate ValidRow(row: Row)
    ensures ValidRow(row) ==> row.Row?
  {
    RowError(row).None?
  }

  function LossDistance(d: Direction, entry: real, stop: real): real {
    if d.Buy? then entry - stop else stop - entry
  }

  /** Money lost on `volume` lots when price travels `distance`; nothing for a stop in profit. */
  function Exposure(distance: real, spec: RiskSpec, volume: real): (amount: real)
    requires ValidSpec(spec) && volume > 0.0
    ensures amount >= 0.0
    ensures amount == 0.0 <==> distance <= 0.0
  {
    var ticks := Max(0.0, distance) / spec.tickSize;
    assert ticks * spec.tickSize == Max(0.0, distance);
    assert ticks * spec.tickValue >= 0.0;
    ticks * spec.tickValue * volume
  }

  lemma ExposureMonotone(near: real, far: real, spec: RiskSpec, volume: real)
    requires ValidSpec(spec) && volume > 0.0 && near <= far
    ensures Exposure(near, spec, volume) <= Exposure(far, spec, volume)
  {
    var a, b := Max(0.0, near) / spec.tickSize, Max(0.0, far) / spec.tickSize;
    assert a * spec.tickSize <= b * spec.tickSize;
    assert a <= b;
    assert a * spec.tickValue <= b * spec.tickValue;
  }

  function PositionRisk(row: Row, spec: RiskSpec): (amount: real)
    requires ValidRow(row) && ValidSpec(spec)
    ensures amount >= 0.0
    ensures amount == 0.0 <==> LossDistance(row.direction.value, row.entry.value, row.stop.value) <= 0.0
  {
    Exposure(LossDistance(row.direction.value, row.entry.value, row.stop.value), spec, row.volume.value)
  }

  /**
   * The risk of a ticket is the number of ticks between its entry and a stop on the
   * losing side, times the money one tick is worth on its volume.
   */
  lemma RiskIsTicksToStop(row: Row, spec: RiskSpec)
    requires ValidRow(row) && ValidSpec(spec)
    ensures var entry, stop := row.entry.value, row.stop.value;
      var lost := if row.direction.value.Buy? then entry - stop else stop - entry;
      PositionRisk(row, spec) * spec.tickSize == (if lost > 0.0 then lost * spec.tickValue * row.volume.value else 0.0)
  {
    var lost := LossDistance(row.direction.value, row.entry.value, row.stop.value);
    ExposureInTicks(lost, spec, row.volume.value);
  }

  lemma ExposureInTicks(distance: real, spec: RiskSpec, volume: real)
    requires ValidSpec(spec) && volume > 0.0
    ensures Exposure(distance, spec, volume) * spec.tickSize == Max(0.0, distance) * spec.tickValue * volume
  {
    var ticks := Max(0.0, distance) / spec.tickSize;
    assert ticks * spec.tickSize == Max(0.0, distance);
    Reorder(ticks, spec.tickValue, volume, spec.tickSize);
  }

  lemma Reorder(ticks: real, value: real, volume: real, size: real)
    ensures ticks * value * volume * size == (ticks * size) * value * volume
  {
  }

  // -------------------------------------------------------------- all tickets

  predicate AllValid(rows: seq<Row>) {
    forall row <- rows :: ValidRow(row)
  }

  function Elements(order: seq<string>): set<string> {
    set t <- order
  }

  function RowSet(rows: seq<Row>): set<Row> {
    set row <- rows
  }

  function Tickets(rows: set<Row>): set<string> {
    set row <- rows :: TicketOf(row)
  }

  function TicketOf(row: Row): string {
    if row.Row? then row.ticket else ""
  }

  /** The largest risk any row reports for one ticket. */
  ghost predicate IsWorst(rows: set<Row>, risk: Row -> real, ticket: string, amount: real)
  {
    && (exists row <- rows :: TicketOf(row) == ticket && risk(row) == amount)
    && (forall row <- rows :: TicketOf(row) == ticket ==> risk(row) <= amount)
  }

  ghost predicate IsWorstMap(rows: set<Row>, risk: Row -> real, worst: map<string, real>)
  {
    worst.Keys == Tickets(rows) && forall t <- worst :: IsWorst(rows, risk, t, worst[t])
  }

  ghost function SumOver(keys: set<string>, m: map<string, real>): real
    requires keys <= m.Keys
  {
    if keys == {} then 0.0
    else var k :| k in keys; m[k] + SumOver(keys - {k}, m)
  }

  lemma {:induction false} SumOverTake(keys: set<string>, m: map<string, real>, k: string)
    requires keys <= m.Keys && k in keys
    ensures SumOver(keys, m) == m[k] + SumOver(keys - {k}, m)
    decreases keys
  {
    var first :| first in keys && SumOver(keys, m) == m[first] + SumOver(keys - {first}, m);
    if first != k {
      SumOverTake(keys - {first}, m, k);
      SumOverTake(keys - {k}, m, first);
      assert keys - {first} - {k} == keys - {k} - {first};
    }
  }

  /** Sums grow with the set of tickets and with the amount of each. */
  lemma {:induction false} SumOverMonotone(a: set<string>, ma: map<string, real>, b: set<string>, mb: map<string, real>)
    requires a <= ma.Keys && b <= mb.Keys && a <= b
    requires forall k <- a :: ma[k] <= mb[k]
    requires forall k <- b :: mb[k] >= 0.0
    ensures SumOver(a, ma) <= SumOver(b, mb)
    decreases b
  {
    if b != {} {
      var k :| k in b;
      SumOverTake(b, mb, k);
      if k in a {
        SumOverTake(a, ma, k);
      }
      SumOverMonotone(a - {k}, ma, b - {k}, mb);
      if k !in a {
        assert a - {k} == a;
      }
    }
  }

  /** The error of the first invalid row. */
  function FirstError(rows: seq<Row>): RiskError
    requires !AllValid(rows)
  {
    if RowError(rows[0]).Some? then RowError(rows[0]).value else FirstError(rows[1..])
  }

  /** What the fold over broker rows returns: total exposure and ticket count. */
  ghost predicate IsOpenRisk(rows: seq<Row>, risk: Row -> real, r: Result<(real, nat)>)
  {
    if AllValid(rows) then
      r.Success? && exists worst: map<string, real> ::
        && IsWorstMap(RowSet(rows), risk, worst)
        && r.value == (SumOver(worst.Keys, worst), |worst|)
    else r == Failure(FirstError(rows))
  }

  /** One open ticket's loss-to-stop as a function of its row. */
  function RiskOf(spec: RiskSpec): Row -> real
    requires ValidSpec(spec)
  {
    row => if ValidRow(row) then PositionRisk(row, spec) else 0.0
  }

  lemma RiskOfIsNonnegative(spec: RiskSpec)
    requires ValidSpec(spec)
    ensures Nonnegative(RiskOf(spec))
  {
  }

  ghost predicate Nonnegative(risk: Row -> real) {
    forall row :: risk(row) >= 0.0
  }

  /** Sums each ticket once; repeated rows of a ticket count at the worst risk. */
  method AggregateOpenRisk(rows: seq<Row>, risk: Row -> real) returns (r: Result<(real, nat)>)
    requires Nonnegative(risk)
    ensures IsOpenRisk(rows, risk, r)
  {
    var riskByTicket: map<string, real> := map[];
    var order: seq<string> := [];
    for i := 0 to |rows|
      invariant AllValid(rows[..i])
      invariant IsWorstMap(RowSet(rows[..i]), risk, riskByTicket)
      invariant Distinct(order)
      invariant riskByTicket.Keys == Elements(order)
    {
      var row := rows[i];
      assert rows[..i + 1] == rows[..i] + [row];
      assert RowSet(rows[..i + 1]) == RowSet(rows[..i]) + {row};
      if RowError(row).Some? {
        FirstErrorAt(rows, i);
        return Failure(RowError(row).value);
      }
      var amount := risk(row);
      if TicketOf(row) !in riskByTicket {
        order := order + [TicketOf(row)];
      }
      var previous := if TicketOf(row) in riskByTicket then riskByTicket[TicketOf(row)] else 0.0;
      WorstMapExtends(RowSet(rows[..i]), row, risk, riskByTicket);
      riskByTicket := riskByTicket[TicketOf(row) := Max(previous, amount)];
    }
    assert rows[..|rows|] == rows;
    var total := SumValues(order, riskByTicket);
    r := Success((total, |riskByTicket|));
  }

  /** Adds a dictionary's values in insertion order. */
  method SumValues(order: seq<string>, m: map<string, real>) returns (total: real)
    requires Distinct(order) && m.Keys == Elements(order)
    ensures total == SumOver(m.Keys, m)
  {
    total := 0.0;
    for i := 0 to |order|
      invariant total == SumOver(Elements(order[..i]), m)
    {
      SumOfPrefix(order, m, i);
      total := total + m[order[i]];
    }
    assert order[..|order|] == order;
  }

  lemma SumOfPrefix(order: seq<string>, m: map<string, real>, i: nat)
    requires Distinct(order) && m.Keys == Elements(order) && i < |order|
    ensures SumOver(Elements(order[..i + 1]), m) == SumOver(Elements(order[..i]), m) + m[order[i]]
  {
    var before, after := Elements(order[..i]), Elements(order[..i + 1]);
    assert order[..i + 1] == order[..i] + [order[i]];
    assert after == before + {order[i]} && order[i] !in before;
    assert after - {order[i]} == before;
    SumOverTake(after, m, order[i]);
  }

  lemma {:induction false} FirstErrorAt(rows: seq<Row>, i: nat)
    requires i < |rows| && AllValid(rows[..i]) && !ValidRow(rows[i])
    ensures !AllValid(rows) && FirstError(rows) == RowError(rows[i]).value
  {
    assert rows[i] in rows;
    if i > 0 {
      assert rows[0] == rows[..i][0] && ValidRow(rows[0]);
      assert rows[1..][..i - 1] == rows[..i][1..];
      FirstErrorAt(rows[1..], i - 1);
    }
  }

  lemma WorstMapExtends(rows: set<Row>, row: Row, risk: Row -> real, worst: map<string, real>)
    requires Nonnegative(risk)
    requires IsWorstMap(rows, risk, worst)
    ensures var previous := if TicketOf(row) in worst then worst[TicketOf(row)] else 0.0;
      IsWorstMap(rows + {row}, risk, worst[TicketOf(row) := Max(previous, risk(row))])
  {
    var amount := risk(row);
    var previous := if TicketOf(row) in worst then worst[TicketOf(row)] else 0.0;
    var next := worst[TicketOf(row) := Max(previous, amount)];
    var all := rows + {row};
    assert row in all;
    assert Tickets(all) == Tickets(rows) + {TicketOf(row)};
    forall t <- next ensures IsWorst(all, risk, t, next[t]) {
      if t == TicketOf(row) {
        if t in worst && previous >= amount {
          var seen :| seen in rows && TicketOf(seen) == t && risk(seen) == previous;
          assert seen in all;
        } else {
          forall r <- rows ensures TicketOf(r) == t ==> risk(r) <= previous {
            assert TicketOf(r) in Tickets(rows);
          }
        }
      } else {
        var seen :| seen in rows && TicketOf(seen) == t && risk(seen) == worst[t];
        assert seen in all;
      }
    }
  }

  lemma WorstMapUnique(rows: set<Row>, risk: Row -> real, a: map<string, real>, b: map<string, real>)
    requires IsWorstMap(rows, risk, a) && IsWorstMap(rows, risk, b)
    ensures a == b
  {
    forall t <- a ensures a[t] == b[t] {
      assert IsWorst(rows, risk, t, a[t]) && IsWorst(rows, risk, t, b[t]);
    }
  }

  /**
   * Exposure depends on the set of reported rows only: any reordering or
   * repetition gives the same total and count, and one invalid row anywhere
   * leaves no result.
   */
  lemma OpenRiskIgnoresOrderAndRepeats(rows: seq<Row>, again: seq<Row>, risk: Row -> real,
                                       r: Result<(real, nat)>, s: Result<(real, nat)>)
    requires RowSet(rows) == RowSet(again)
    requires IsOpenRisk(rows, risk, r) && IsOpenRisk(again, risk, s)
    ensures r.Success? <==> s.Success?
    ensures r.Success? ==> r == s
    ensures r.Success? <==> forall row <- RowSet(rows) :: ValidRow(row)
  {
    assert AllValid(rows) <==> forall row <- RowSet(rows) :: ValidRow(row);
    assert AllValid(again) <==> forall row <- RowSet(again) :: ValidRow(row);
    if r.Success? {
      var a := WorstMapOf(rows, risk, r);
      var b := WorstMapOf(again, risk, s);
      WorstMapUnique(RowSet(rows), risk, a, b);
    }
  }

  lemma WorstMapMonotone(rows: set<Row>, more: set<Row>, risk: Row -> real, a: map<string, real>, b: map<string, real>)
    requires Nonnegative(risk) && rows <= more
    requires IsWorstMap(rows, risk, a) && IsWorstMap(more, risk, b)
    ensures a.Keys <= b.Keys
    ensures forall t <- a.Keys :: a[t] <= b[t]
    ensures forall t <- b.Keys :: b[t] >= 0.0
  {
    forall t <- a ensures t in b && a[t] <= b[t] {
      var row :| row in rows && TicketOf(row) == t && risk(row) == a[t];
      assert TicketOf(row) in Tickets(more);
    }
    forall t <- b ensures b[t] >= 0.0 {
      var row :| row in more && TicketOf(row) == t && risk(row) == b[t];
    }
  }

  /** The worst risks behind a total. */
  lemma WorstMapOf(rows: seq<Row>, risk: Row -> real, r: Result<(real, nat)>) returns (worst: map<string, real>)
    requires IsOpenRisk(rows, risk, r) && r.Success?
    ensures IsWorstMap(RowSet(rows), risk, worst) && r.value == (SumOver(worst.Keys, worst), |worst|)
  {
    worst :| IsWorstMap(RowSet(rows), risk, worst) && r.value == (SumOver(worst.Keys, worst), |worst|);
  }

  lemma ValidAmong(rows: seq<Row>, more: seq<Row>)
    requires AllValid(more) && RowSet(rows) <= RowSet(more)
    ensures AllValid(rows)
  {
    forall row <- rows ensures ValidRow(row) {
      assert row in RowSet(rows);
    }
  }

  /** More rows never report less exposure or fewer tickets. */
  lemma OpenRiskMonotone(rows: seq<Row>, more: seq<Row>, risk: Row -> real, r: Result<(real, nat)>, s: Result<(real, nat)>)
    requires Nonnegative(risk) && RowSet(rows) <= RowSet(more)
    requires IsOpenRisk(rows, risk, r) && IsOpenRisk(more, risk, s) && s.Success?
    ensures r.Success? && r.value.0 <= s.value.0 && r.value.1 <= s.value.1
  {
    ValidAmong(rows, more);
    var a := WorstMapOf(rows, risk, r);
    var b := WorstMapOf(more, risk, s);
    WorstTotalsGrow(RowSet(rows), RowSet(more), risk, a, b);
  }

  lemma WorstTotalsGrow(rows: set<Row>, more: set<Row>, risk: Row -> real, a: map<string, real>, b: map<string, real>)
    requires Nonnegative(risk) && rows <= more
    requires IsWorstMap(rows, risk, a) && IsWorstMap(more, risk, b)
    ensures SumOver(a.Keys, a) <= SumOver(b.Keys, b) && |a| <= |b|
  {
    WorstMapMonotone(rows, more, risk, a, b);
    SubsetSize(a.Keys, b.Keys);
    SumOverMonotone(a.Keys, a, b.Keys, b);
  }
}
