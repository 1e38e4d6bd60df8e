// Whole runs of one engine: admissions, trailing updates and closes, against
// the exposure of the tickets that are open at the broker.
module RiskRuns {
  import opened Options
  import opened Market
  import opened Rounding
  import opened AggregateRisk
  import opened OrderSizing
  import opened TrailingStop

  /** A position at the broker: its fill price, its volume and its trailed ticket. */
  datatype Open = Open(id: string, openPrice: real, volume: real, ticket: Ticket)

  function Loss(o: Open): real {
    LossDistance(o.ticket.base.direction, o.openPrice, o.ticket.sl)
  }

  function Risk(o: Open, spec: RiskSpec): (amount: real)
    requires ValidSpec(spec) && o.volume > 0.0
    ensures amount >= 0.0
  {
    Exposure(Loss(o), spec, o.volume)
  }

  predicate Sane(book: seq<Open>) {
    (forall o <- book :: o.volume > 0.0) && DistinctBook(book)
  }

  /** No open stop can be moved backward by cent rounding. */
  predicate Ratcheted(book: seq<Open>, cfg: Config) {
    forall o <- book :: RoundsInFavour(o.ticket.base, o.ticket.sl, cfg)
  }

  function RiskIn(spec: RiskSpec): Open -> real
    requires ValidSpec(spec)
  {
    (o: Open) => if o.volume > 0.0 then Risk(o, spec) else 0.0
  }

  function Total(book: seq<Open>, risk: Open -> real): real
    decreases |book|
  {
    if book == [] then 0.0 else risk(book[0]) + Total(book[1..], risk)
  }

  /** Total loss-to-stop of the open tickets. */
  function BookRisk(book: seq<Open>, spec: RiskSpec): real
    requires ValidSpec(spec)
  {
    Total(book, RiskIn(spec))
  }

  /** The row a complete broker report holds for one position. */
  function RowOf(o: Open): Row {
    Row(o.id, Some(o.ticket.base.direction), Some(o.openPrice), Some(o.ticket.sl), Some(o.volume))
  }

  function BookRows(book: seq<Open>): set<Row> {
    set o <- book :: RowOf(o)
  }

  /** The report lists every open position, in any order and with any repeats, and nothing else. */
  predicate CompleteReport(rows: seq<Row>, book: seq<Open>) {
    RowSet(rows) == BookRows(book)
  }

  // ---------------------------------------------------------------- events

  datatype Event =
    | Enter(rows: seq<Row>, req: Request, lot: real, existing: real, id: string, fill: real)
    | Trail(index: nat, tick: Tick)
    | Close(index: nat)

  /** `limit` is the aggregate limit of the last admission, `slip` what its fill cost beyond the sized risk. */
  datatype State = State(book: seq<Open>, limit: real, slip: real)

  function Placed(e: Event): Open
    requires e.Enter?
  {
    Open(e.id, e.fill, e.lot, Ticket(NewBaseline(e.req.direction, e.req.entry, e.req.stop), e.req.stop))
  }

  ghost predicate Enabled(s: State, e: Event, spec: RiskSpec)
    requires ValidSpec(spec)
  {
    match e
    case Enter(rows, req, lot, existing, id, fill) =>
      && CompleteReport(rows, s.book)
      && (exists n: nat :: IsOpenRisk(rows, RiskOf(spec), AggregateRisk.Success((existing, n))))
      && Admitted(TermsOf(req, spec), spec, existing, lot)
      && (forall o <- s.book :: o.id != id)
    case Trail(index, _) => index < |s.book|
    case Close(index) => index < |s.book|
  }

  /** What adverse slippage adds to the risk the order was sized for. */
  function Slippage(e: Event, spec: RiskSpec): real
    requires e.Enter? && ValidSpec(spec) && e.lot > 0.0
  {
    Max(0.0, Risk(Placed(e), spec) - Exposure(LossDistance(e.req.direction, e.req.entry, e.req.stop), spec, e.lot))
  }

  function Next(s: State, e: Event, spec: RiskSpec, cfg: Config): State
    requires ValidSpec(spec)
    requires e.Enter? ==> e.lot > 0.0 && NumbersUsable(e.req)
    requires !e.Enter? ==> e.index < |s.book|
  {
    match e
    case Enter(_, req, _, _, _, _) => State(s.book + [Placed(e)], AggregateLimit(req), Slippage(e, spec))
    case Trail(index, tick) =>
      var o := s.book[index];
      s.(book := s.book[index := o.(ticket := TickStep(o.ticket, tick, cfg))])
    case Close(index) => s.(book := s.book[..index] + s.book[index + 1..])
  }

  /** Every admitted lot is positive, so the test on lots in a run's definition excludes no run. */
  lemma AdmittedLotIsPositive(t: Terms, spec: RiskSpec, existing: real, lot: real)
    requires ValidSpec(spec) && Admitted(t, spec, existing, lot)
    ensures lot > 0.0
  {
    var k: nat :| lot == LotAt(spec, k);
    LotAtMonotone(spec, 0, k);
  }

  ghost predicate EnabledRun(s: State, events: seq<Event>, spec: RiskSpec, cfg: Config)
    requires ValidSpec(spec)
    decreases |events|
  {
    events != [] ==>
      && Enabled(s, events[0], spec)
      && (events[0].Enter? ==> events[0].lot > 0.0)
      && EnabledRun(Next(s, events[0], spec, cfg), events[1..], spec, cfg)
  }

  ghost function Run(s: State, events: seq<Event>, spec: RiskSpec, cfg: Config): State
    requires ValidSpec(spec) && EnabledRun(s, events, spec, cfg)
    decreases |events|
  {
    if events == [] then s else Run(Next(s, events[0], spec, cfg), events[1..], spec, cfg)
  }

  // ------------------------------------------------- the report is the book

  predicate DistinctBook(book: seq<Open>) {
    forall i, j :: 0 <= i < j < |book| ==> book[i].id != book[j].id
  }

  function Ids(book: seq<Open>): set<string> {
    set o <- book :: o.id
  }

  lemma {:induction false} TotalSplit(book: seq<Open>, index: nat, risk: Open -> real)
    requires index < |book|
    ensures Total(book, risk) == risk(book[index]) + Total(book[..index] + book[index + 1..], risk)
    decreases |book|
  {
    var rest := book[..index] + book[index + 1..];
    if index == 0 {
      assert rest == book[1..];
    } else {
      TotalSplit(book[1..], index - 1, risk);
      assert rest[0] == book[0];
      assert rest[1..] == book[1..][..index - 1] + book[1..][index..];
    }
  }

  /** Over tickets that are exactly the book's, a per-ticket sum is the book's total. */
  lemma {:induction false} TicketSumIsTotal(book: seq<Open>, risk: Open -> real, worst: map<string, real>)
    requires DistinctBook(book) && Ids(book) <= worst.Keys
    requires forall o <- book :: worst[o.id] == risk(o)
    ensures SumOver(Ids(book), worst) == Total(book, risk)
    decreases |book|
  {
    if book != [] {
      var first := book[0];
      assert first in book;
      SumOverTake(Ids(book), worst, first.id);
      IdsOfTail(book);
      TicketSumIsTotal(book[1..], risk, worst);
    }
  }

  lemma IdsOfTail(book: seq<Open>)
    requires DistinctBook(book) && book != []
    ensures Ids(book) - {book[0].id} == Ids(book[1..])
  {
    assert book == [book[0]] + book[1..];
    forall o <- book[1..] ensures o.id != book[0].id {
      var i :| 0 <= i < |book[1..]| && book[1..][i] == o;
      assert o == book[i + 1];
    }
    assert Ids(book) == {book[0].id} + Ids(book[1..]);
  }

  lemma TotalAppend(book: seq<Open>, o: Open, risk: Open -> real)
    ensures Total(book + [o], risk) == Total(book, risk) + risk(o)
  {
    var all := book + [o];
    assert all[..|book|] + all[|book| + 1..] == book;
    TotalSplit(all, |book|, risk);
  }

  lemma TotalReplace(book: seq<Open>, index: nat, o: Open, risk: Open -> real)
    requires index < |book|
    ensures Total(book[index := o], risk) == Total(book, risk) - risk(book[index]) + risk(o)
  {
    var after := book[index := o];
    assert after[..index] + after[index + 1..] == book[..index] + book[index + 1..];
    TotalSplit(book, index, risk);
    TotalSplit(after, index, risk);
  }

  /** In a complete report, a ticket's worst row is its only row. */
  lemma WorstRowIsTheRow(rows: set<Row>, book: seq<Open>, rowRisk: Row -> real, worst: map<string, real>, o: Open)
    requires DistinctBook(book) && rows == BookRows(book) && o in book
    requires IsWorstMap(rows, rowRisk, worst)
    ensures o.id in worst && worst[o.id] == rowRisk(RowOf(o))
  {
    assert RowOf(o) in rows && TicketOf(RowOf(o)) in Tickets(rows);
    assert IsWorst(rows, rowRisk, o.id, worst[o.id]);
    var top :| top in rows && TicketOf(top) == o.id && rowRisk(top) == worst[o.id];
    var p :| p in book && RowOf(p) == top;
    var i :| 0 <= i < |book| && book[i] == o;
    var j :| 0 <= j < |book| && book[j] == p;
    assert i == j;
  }

  lemma TicketsOfBook(book: seq<Open>)
    ensures Tickets(BookRows(book)) == Ids(book)
  {
    forall o <- book ensures o.id in Tickets(BookRows(book)) {
      assert RowOf(o) in BookRows(book) && TicketOf(RowOf(o)) == o.id;
    }
  }

  lemma WorstSumIsTotal(rows: set<Row>, book: seq<Open>, rowRisk: Row -> real, risk: Open -> real, worst: map<string, real>)
    requires DistinctBook(book) && rows == BookRows(book) && IsWorstMap(rows, rowRisk, worst)
    requires forall o <- book :: rowRisk(RowOf(o)) == risk(o)
    ensures SumOver(worst.Keys, worst) == Total(book, risk) && worst.Keys == Ids(book)
  {
    TicketsOfBook(book);
    forall o <- book ensures worst[o.id] == risk(o) {
      WorstRowIsTheRow(rows, book, rowRisk, worst, o);
    }
    TicketSumIsTotal(book, risk, worst);
  }

  lemma RowRiskIsTicketRisk(o: Open, spec: RiskSpec)
    requires ValidSpec(spec) && ValidRow(RowOf(o))
    ensures RiskOf(spec)(RowOf(o)) == RiskIn(spec)(o)
  {
  }

  /** Aggregating a complete report gives the book's own total and ticket count. */
  lemma ReportedRiskIsBookRisk(rows: seq<Row>, book: seq<Open>, spec: RiskSpec, existing: real, n: nat)
    requires ValidSpec(spec) && Sane(book) && CompleteReport(rows, book)
    requires IsOpenRisk(rows, RiskOf(spec), AggregateRisk.Success((existing, n)))
    ensures existing == BookRisk(book, spec) && n == |Ids(book)|
  {
    var rowRisk, risk := RiskOf(spec), RiskIn(spec);
    var worst :| IsWorstMap(RowSet(rows), rowRisk, worst) && (existing, n) == (SumOver(worst.Keys, worst), |worst|);
    forall o <- book ensures rowRisk(RowOf(o)) == risk(o) {
      assert RowOf(o) in BookRows(book) && RowOf(o) in rows;
      RowRiskIsTicketRisk(o, spec);
    }
    WorstSumIsTotal(RowSet(rows), book, rowRisk, risk, worst);
    assert |worst| == |worst.Keys|;
  }

  // -------------------------------------------------------------- the bound

  ghost predicate Bounded(s: State, spec: RiskSpec)
    requires ValidSpec(spec)
  {
    Sane(s.book) && s.slip >= 0.0 && BookRisk(s.book, spec) <= s.limit + s.slip
  }

  /** The planned stop of the order rounds in favour. */
  predicate StopRounds(e: Event, cfg: Config)
    requires e.Enter?
  {
    RoundsInFavour(NewBaseline(e.req.direction, e.req.entry, e.req.stop), e.req.stop, cfg)
  }

  predicate StopsRound(events: seq<Event>, cfg: Config) {
    forall e <- events :: e.Enter? ==> StopRounds(e, cfg)
  }

  lemma EntryKeepsBound(s: State, e: Event, spec: RiskSpec, cfg: Config)
    requires ValidSpec(spec) && Sane(s.book) && e.Enter? && Enabled(s, e, spec) && e.lot > 0.0
    ensures Bounded(Next(s, e, spec, cfg), spec)
  {
    MeasuredRiskIsBookRisk(s, e, spec);
    FilledRisk(e, spec);
    TotalAppend(s.book, Placed(e), RiskIn(spec));
    SaneAppend(s.book, Placed(e));
  }

  /** What an admitted order measured is the exposure of the book it joins. */
  lemma MeasuredRiskIsBookRisk(s: State, e: Event, spec: RiskSpec)
    requires ValidSpec(spec) && Sane(s.book) && e.Enter? && Enabled(s, e, spec)
    ensures e.existing == BookRisk(s.book, spec)
  {
    var n: nat :| IsOpenRisk(e.rows, RiskOf(spec), AggregateRisk.Success((e.existing, n)));
    ReportedRiskIsBookRisk(e.rows, s.book, spec, e.existing, n);
  }

  lemma SaneAppend(book: seq<Open>, o: Open)
    requires Sane(book) && o.volume > 0.0 && forall p <- book :: p.id != o.id
    ensures Sane(book + [o])
  {
    forall p <- book + [o] ensures p in book || p == o {
    }
  }

  lemma FilledRisk(e: Event, spec: RiskSpec)
    requires ValidSpec(spec) && e.Enter? && e.lot > 0.0
    requires Admitted(TermsOf(e.req, spec), spec, e.existing, e.lot)
    ensures e.existing + RiskIn(spec)(Placed(e)) <= AggregateLimit(e.req) + Slippage(e, spec)
  {
    SizedRisk(e, spec);
  }

  lemma SizedRisk(e: Event, spec: RiskSpec)
    requires ValidSpec(spec) && e.Enter? && e.lot > 0.0
    requires Admitted(TermsOf(e.req, spec), spec, e.existing, e.lot)
    ensures e.existing + Exposure(LossDistance(e.req.direction, e.req.entry, e.req.stop), spec, e.lot)
         <= AggregateLimit(e.req)
  {
    assert Exposure(LossDistance(e.req.direction, e.req.entry, e.req.stop), spec, e.lot)
        == RiskPerLot(e.req, spec) * e.lot;
  }

  /** A trailing step or a close never raises the exposure. */
  lemma OtherEventsLowerRisk(s: State, e: Event, spec: RiskSpec, cfg: Config)
    requires ValidSpec(spec) && Sane(s.book) && !e.Enter? && e.index < |s.book| && cfg.minStep >= 0.0
    requires Ratcheted(s.book, cfg)
    ensures Sane(Next(s, e, spec, cfg).book) && Ratcheted(Next(s, e, spec, cfg).book, cfg)
    ensures BookRisk(Next(s, e, spec, cfg).book, spec) <= BookRisk(s.book, spec)
  {
    if e.Trail? {
      TrailLowersRisk(s.book, e.index, e.tick, spec, cfg);
    } else {
      CloseLowersRisk(s.book, e.index, spec, cfg);
    }
  }

  lemma TrailLowersRisk(book: seq<Open>, index: nat, tick: Tick, spec: RiskSpec, cfg: Config)
    requires ValidSpec(spec) && Sane(book) && index < |book| && cfg.minStep >= 0.0 && Ratcheted(book, cfg)
    ensures var o := book[index];
      var after := book[index := o.(ticket := TickStep(o.ticket, tick, cfg))];
      Sane(after) && Ratcheted(after, cfg) && BookRisk(after, spec) <= BookRisk(book, spec)
  {
    var o := book[index];
    var moved := o.(ticket := TickStep(o.ticket, tick, cfg));
    assert o in book;
    TickMovesInFavour(o.ticket, tick, cfg);
    TotalReplace(book, index, moved, RiskIn(spec));
    assert Risk(moved, spec) <= Risk(o, spec) by {
      ExposureMonotone(Loss(moved), Loss(o), spec, o.volume);
    }
    ReplaceKeepsClass(book, index, moved, cfg);
  }

  lemma ReplaceKeepsClass(book: seq<Open>, index: nat, o: Open, cfg: Config)
    requires Sane(book) && Ratcheted(book, cfg) && index < |book| && o.id == book[index].id && o.volume > 0.0
    requires RoundsInFavour(o.ticket.base, o.ticket.sl, cfg)
    ensures Sane(book[index := o]) && Ratcheted(book[index := o], cfg)
  {
    forall p <- book[index := o] ensures p in book || p == o {
    }
  }

  lemma CloseLowersRisk(book: seq<Open>, index: nat, spec: RiskSpec, cfg: Config)
    requires ValidSpec(spec) && Sane(book) && index < |book| && Ratcheted(book, cfg)
    ensures var after := book[..index] + book[index + 1..];
      Sane(after) && Ratcheted(after, cfg) && BookRisk(after, spec) <= BookRisk(book, spec)
  {
    TotalSplit(book, index, RiskIn(spec));
    forall p <- book[..index] + book[index + 1..] ensures p in book {
    }
  }

  /**
   * Over every run, the open tickets never stand to lose more than the limit
   * of the latest admission plus the slippage of that one fill.
   */
  lemma {:induction false} RiskStaysBounded(s: State, events: seq<Event>, spec: RiskSpec, cfg: Config)
    requires ValidSpec(spec) && cfg.minStep >= 0.0 && Bounded(s, spec) && Ratcheted(s.book, cfg)
    requires EnabledRun(s, events, spec, cfg) && StopsRound(events, cfg)
    ensures Bounded(Run(s, events, spec, cfg), spec) && Ratcheted(Run(s, events, spec, cfg).book, cfg)
    decreases |events|
  {
    if events != [] {
      assert events[0] in events;
      if events[0].Enter? {
        EntryKeepsBound(s, events[0], spec, cfg);
      } else {
        OtherEventsLowerRisk(s, events[0], spec, cfg);
      }
      RiskStaysBounded(Next(s, events[0], spec, cfg), events[1..], spec, cfg);
    }
  }

  const EMPTY := State([], 0.0, 0.0)

  /** No order of the run fills more than `slack` worse than the price it was sized for. */
  predicate FillsWithin(events: seq<Event>, slack: real) {
    forall e <- events :: e.Enter? ==> Lead(e.req.direction, e.fill, e.req.entry) <= slack
  }

  /**
   * When no order fills worse than the price it was sized for and every planned
   * stop rounds in favour, the limit itself is never exceeded.
   */
  lemma RiskWithinLimit(events: seq<Event>, spec: RiskSpec, cfg: Config)
    requires ValidSpec(spec) && cfg.minStep >= 0.0
    requires EnabledRun(EMPTY, events, spec, cfg) && FillsWithin(events, 0.0) && StopsRound(events, cfg)
    ensures var end := Run(EMPTY, events, spec, cfg); Sane(end.book) && BookRisk(end.book, spec) <= end.limit
  {
    RiskStaysBounded(EMPTY, events, spec, cfg);
    NoSlipWithoutSlippage(EMPTY, events, spec, cfg);
  }

  lemma {:induction false} NoSlipWithoutSlippage(s: State, events: seq<Event>, spec: RiskSpec, cfg: Config)
    requires ValidSpec(spec) && s.slip == 0.0 && EnabledRun(s, events, spec, cfg) && FillsWithin(events, 0.0)
    ensures Run(s, events, spec, cfg).slip == 0.0
    decreases |events|
  {
    if events != [] {
      var e := events[0];
      assert e in events;
      if e.Enter? {
        ExposureMonotone(LossDistance(e.req.direction, e.fill, e.req.stop),
                         LossDistance(e.req.direction, e.req.entry, e.req.stop), spec, e.lot);
      }
      NoSlipWithoutSlippage(Next(s, e, spec, cfg), events[1..], spec, cfg);
    }
  }

  lemma ExposureGrows(near: real, far: real, spec: RiskSpec, volume: real)
    requires ValidSpec(spec) && volume > 0.0 && 0.0 <= near < far
    ensures Exposure(near, spec, volume) < Exposure(far, spec, volume)
  {
    var extra := Exposure(far - near, spec, volume);
    assert far / spec.tickSize == near / spec.tickSize + (far - near) / spec.tickSize;
    assert Exposure(far, spec, volume) == Exposure(near, spec, volume) + extra;
  }

  /**
   * One open position, sized at its fill: no stream of quotes raises its
   * exposure if and only if its stop rounds in favour.
   */
  lemma ExposureNeverGrowsIff(o: Open, spec: RiskSpec, cfg: Config)
    requires ValidSpec(spec) && cfg.minStep >= 0.0 && cfg.multiplier > 0.0
    requires o.volume > 0.0 && Loss(o) > 0.0 && RiskUnit(o.ticket.base) > 0.0
    ensures (forall ticks: seq<Tick> :: Risk(Trailed(o, ticks, cfg), spec) <= Risk(o, spec))
       <==> RoundsInFavour(o.ticket.base, o.ticket.sl, cfg)
  {
    if RoundsInFavour(o.ticket.base, o.ticket.sl, cfg) {
      forall ticks: seq<Tick> ensures Risk(Trailed(o, ticks, cfg), spec) <= Risk(o, spec) {
        StopOnlyRatchets(o.ticket, ticks, cfg);
        ExposureMonotone(Loss(Trailed(o, ticks, cfg)), Loss(o), spec, o.volume);
      }
    } else {
      var ticks := BackwardTicks(o.ticket, cfg);
      ExposureGrows(Loss(o), Loss(Trailed(o, ticks, cfg)), spec, o.volume);
      assert Risk(Trailed(o, ticks, cfg), spec) > Risk(o, spec);
    }
  }

  function Trailed(o: Open, ticks: seq<Tick>, cfg: Config): Open {
    o.(ticket := TrailingStop.Run(o.ticket, ticks, cfg))
  }

  // ------------------------------------------ both conditions are necessary

  /** One minimum lot at 2% of the balance per trade and in all, sized to use the whole limit. */
  function TightEntry(spec: RiskSpec, d: Direction, entry: real, stop: real, fill: real): Event
    requires ValidSpec(spec)
  {
    var balance := Exposure(LossDistance(d, entry, stop), spec, spec.volumeMin) * 50.0;
    Enter([], Request(d, entry, stop, Some(balance), Some(2.0), Some(2.0)), spec.volumeMin, 0.0, "1", fill)
  }

  /** An order sizing can work with: positive prices and a stop on the losing side. */
  predicate UsableOrder(d: Direction, entry: real, stop: real) {
    entry > 0.0 && stop > 0.0 && LossDistance(d, entry, stop) > 0.0
  }

  lemma TightEntryIsEnabled(spec: RiskSpec, d: Direction, entry: real, stop: real, fill: real)
    requires ValidSpec(spec) && UsableOrder(d, entry, stop)
    ensures Enabled(EMPTY, TightEntry(spec, d, entry, stop, fill), spec)
    ensures AggregateLimit(TightEntry(spec, d, entry, stop, fill).req)
         == Exposure(LossDistance(d, entry, stop), spec, spec.volumeMin)
  {
    var e := TightEntry(spec, d, entry, stop, fill);
    var none: map<string, real> := map[];
    assert IsWorstMap(RowSet([]), RiskOf(spec), none) && SumOver(none.Keys, none) == 0.0;
    assert IsOpenRisk([], RiskOf(spec), AggregateRisk.Success((0.0, 0)));
    assert RiskPerLot(e.req, spec) * e.lot == Exposure(LossDistance(d, entry, stop), spec, spec.volumeMin);
    assert spec.volumeMin == LotAt(spec, 0);
  }

  lemma SingleRisk(o: Open, spec: RiskSpec)
    requires ValidSpec(spec) && o.volume > 0.0
    ensures BookRisk([o], spec) == Exposure(Loss(o), spec, o.volume)
  {
    var risk := RiskIn(spec);
    assert [o][0] == o && [o][1..] == [];
    assert Total([o], risk) == risk(o) + Total([], risk);
    assert risk(o) == Risk(o, spec);
  }

  /** A fill above the entry takes a tight order over its limit at once. */
  lemma AdverseFillExceeds(spec: RiskSpec, cfg: Config, slack: real) returns (events: seq<Event>)
    requires ValidSpec(spec) && cfg.minStep >= 0.0 && slack > 0.0
    ensures EnabledRun(EMPTY, events, spec, cfg) && FillsWithin(events, slack) && StopsRound(events, cfg)
    ensures BookRisk(Run(EMPTY, events, spec, cfg).book, spec) > Run(EMPTY, events, spec, cfg).limit
  {
    var e := TightEntry(spec, Buy, 2.0, 1.0, 2.0 + slack);
    var end := Next(EMPTY, e, spec, cfg);
    events := [e];
    TightEntryIsEnabled(spec, Buy, 2.0, 1.0, 2.0 + slack);
    RoundIntExact(100);
    CentStopRoundsInFavour(NewBaseline(Buy, 2.0, 1.0), 1.0, cfg);
    assert events[0] == e && events[1..] == [];
    assert Run(EMPTY, events, spec, cfg) == end && end.book == [Placed(e)];
    SingleRisk(Placed(e), spec);
    assert Loss(Placed(e)) == 1.0 + slack;
    ExposureGrows(1.0, 1.0 + slack, spec, spec.volumeMin);
  }

  /** With no slippage at all, breakeven at 2.004 moves a stop at 2.001 back to 2.00. */
  lemma BackwardRoundingExceeds(spec: RiskSpec, cfg: Config) returns (events: seq<Event>)
    requires ValidSpec(spec)
    ensures EnabledRun(EMPTY, events, spec, cfg) && FillsWithin(events, 0.0)
    ensures BookRisk(Run(EMPTY, events, spec, cfg).book, spec) > Run(EMPTY, events, spec, cfg).limit
  {
    var e := TightEntry(spec, Buy, 2.004, 2.001, 2.004);
    var tick := Tick(2.007, 2.007, 1.0, true);
    var s1 := Next(EMPTY, e, spec, cfg);
    var trail := Trail(0, tick);
    events := [e, trail];
    TightEntryIsEnabled(spec, Buy, 2.004, 2.001, 2.004);
    assert s1.book == [Placed(e)];
    assert events[0] == e && events[1..] == [trail] && [trail][0] == trail && [trail][1..] == [];
    var end := Next(s1, trail, spec, cfg);
    assert Run(s1, [trail], spec, cfg) == end;
    assert Run(EMPTY, events, spec, cfg) == end;
    BackwardBreakeven(cfg);
    var moved := Placed(e).(ticket := TickStep(Placed(e).ticket, tick, cfg));
    assert end.book == [moved];
    SingleRisk(moved, spec);
    assert Loss(moved) == 2.004 - 2.0;
    ExposureGrows(2.004 - 2.001, 2.004 - 2.0, spec, spec.volumeMin);
  }

  lemma BackwardBreakeven(cfg: Config)
    ensures var t := Ticket(NewBaseline(Buy, 2.004, 2.001), 2.001);
      TickStep(t, Tick(2.007, 2.007, 1.0, true), cfg).sl == 2.0
  {
    RoundIntExact(200400000);
    RoundIntExact(300000);
    assert RoundInt(200.4) == 200;
  }

  /**
   * The limit of the latest admission bounds every run if and only if fills
   * carry no adverse slippage and every planned stop rounds in favour.
   */
  lemma RiskWithinLimitIff(spec: RiskSpec, cfg: Config, slack: real, anyStop: bool)
    requires ValidSpec(spec) && cfg.minStep >= 0.0 && slack >= 0.0
    ensures (forall events | EnabledRun(EMPTY, events, spec, cfg) && FillsWithin(events, slack)
                             && (anyStop || StopsRound(events, cfg)) ::
               BookRisk(Run(EMPTY, events, spec, cfg).book, spec) <= Run(EMPTY, events, spec, cfg).limit)
       <==> slack == 0.0 && !anyStop
  {
    if slack == 0.0 && !anyStop {
      forall events | EnabledRun(EMPTY, events, spec, cfg) && FillsWithin(events, slack) && StopsRound(events, cfg)
        ensures BookRisk(Run(EMPTY, events, spec, cfg).book, spec) <= Run(EMPTY, events, spec, cfg).limit {
        RiskWithinLimit(events, spec, cfg);
      }
    } else if slack > 0.0 {
      var events := AdverseFillExceeds(spec, cfg, slack);
    } else {
      var events := BackwardRoundingExceeds(spec, cfg);
    }
  }

  // ---------------------------------------------------- one order at a time

  /** The run admits one order with these prices, filled at its entry, and then only trails or closes it. */
  predicate OneOrder(events: seq<Event>, d: Direction, entry: real, stop: real) {
    && events != [] && events[0].Enter?
    && events[0].req.direction == d && events[0].req.entry == entry == events[0].fill && events[0].req.stop == stop
    && forall e <- events[1..] :: !e.Enter?
  }

  function Trails(ticks: seq<Tick>): (events: seq<Event>)
    ensures |events| == |ticks| && forall e <- events :: !e.Enter?
  {
    if ticks == [] then [] else [Trail(0, ticks[0])] + Trails(ticks[1..])
  }

  lemma {:induction false} TrailsRun(s: State, o: Open, ticks: seq<Tick>, spec: RiskSpec, cfg: Config)
    requires ValidSpec(spec) && s.book == [o]
    ensures EnabledRun(s, Trails(ticks), spec, cfg)
    ensures Run(s, Trails(ticks), spec, cfg) == s.(book := [Trailed(o, ticks, cfg)])
    decreases |ticks|
  {
    if ticks == [] {
      assert Trailed(o, ticks, cfg) == o;
    } else {
      var events := Trails(ticks);
      var o1 := o.(ticket := TickStep(o.ticket, ticks[0], cfg));
      var s1 := Next(s, events[0], spec, cfg);
      assert s1.book == [o1] && events[1..] == Trails(ticks[1..]);
      TrailsRun(s1, o1, ticks[1..], spec, cfg);
    }
  }

  /**
   * Every run of one usable order, filled at its entry, stays within the
   * order's limit if and only if its stop rounds in favour.
   */
  lemma OrderStaysWithinLimitIff(spec: RiskSpec, cfg: Config, d: Direction, entry: real, stop: real)
    requires ValidSpec(spec) && cfg.minStep >= 0.0 && cfg.multiplier > 0.0 && UsableOrder(d, entry, stop)
    ensures (forall events | OneOrder(events, d, entry, stop) && EnabledRun(EMPTY, events, spec, cfg) ::
               BookRisk(Run(EMPTY, events, spec, cfg).book, spec) <= Run(EMPTY, events, spec, cfg).limit)
       <==> RoundsInFavour(NewBaseline(d, entry, stop), stop, cfg)
  {
    if RoundsInFavour(NewBaseline(d, entry, stop), stop, cfg) {
      forall events | OneOrder(events, d, entry, stop) && EnabledRun(EMPTY, events, spec, cfg)
        ensures BookRisk(Run(EMPTY, events, spec, cfg).book, spec) <= Run(EMPTY, events, spec, cfg).limit {
        assert forall e <- events :: e == events[0] || e in events[1..];
        RiskWithinLimit(events, spec, cfg);
      }
    } else {
      var events := OrderExceeds(spec, cfg, d, entry, stop);
    }
  }

  /** A tight order whose stop does not round in favour is trailed over its limit. */
  lemma OrderExceeds(spec: RiskSpec, cfg: Config, d: Direction, entry: real, stop: real) returns (events: seq<Event>)
    requires ValidSpec(spec) && cfg.minStep >= 0.0 && cfg.multiplier > 0.0 && UsableOrder(d, entry, stop)
    requires !RoundsInFavour(NewBaseline(d, entry, stop), stop, cfg)
    ensures OneOrder(events, d, entry, stop) && EnabledRun(EMPTY, events, spec, cfg)
    ensures BookRisk(Run(EMPTY, events, spec, cfg).book, spec) > Run(EMPTY, events, spec, cfg).limit
  {
    var e := TightEntry(spec, d, entry, stop, entry);
    var o, s1 := Placed(e), Next(EMPTY, e, spec, cfg);
    TightEntryIsEnabled(spec, d, entry, stop, entry);
    var ticks := BackwardTicks(o.ticket, cfg);
    events := [e] + Trails(ticks);
    assert events[0] == e && events[1..] == Trails(ticks);
    assert s1.book == [o];
    TrailsRun(s1, o, ticks, spec, cfg);
    var moved := Trailed(o, ticks, cfg);
    SingleRisk(moved, spec);
    ExposureGrows(Loss(o), Loss(moved), spec, spec.volumeMin);
  }
}
