// Collapsing the broker bridge's position rows: duplicated tickets keep one
// row, a lone corrupted row is repaired from the robot's own log or reported
// as unknown, and nothing else changes.
module PositionRepair {
  import opened Options
  import opened Market
  import opened Sets
  import EntrySignal

  const MAX_SANE_VOLUME: real := 100.0

  /** A ticket as the report holds it: a number and its spelling are different keys, rows without one share a key. */
  datatype Ticket = Missing | Number(n: int) | Name(text: string)

  datatype Row =
    | NotADict
    | Row(ticket: Ticket, lots: Option<real>, volume: Option<real>, side: Option<Direction>)

  /** What the robot logged when it opened the ticket. */
  datatype Known = Known(volume: Option<real>, direction: Direction)

  function PositionLots(row: Row): Option<real>
    requires row.Row?
  {
    if Positive(row.lots) then row.lots
    else if Positive(row.volume) && row.volume.value <= MAX_SANE_VOLUME then row.volume
    else None
  }

  predicate Sane(row: Row) {
    row.Row? && PositionLots(row).Some?
  }

  /** A row is sane exactly with positive lots, or else with a positive volume of at most a hundred. */
  lemma SaneIff(row: Row)
    requires row.Row?
    ensures var lots, volume := row.lots.Some? && row.lots.value > 0.0, row.volume.Some? && row.volume.value > 0.0;
      && (Sane(row) <==> lots || (volume && row.volume.value <= 100.0))
      && (Sane(row) ==> PositionLots(row) == if lots then row.lots else row.volume)
  {
  }

  /** The spelling under which the log and the dropped list know a ticket. */
  function Text(t: Ticket): string {
    match t
    case Missing => "None"
    case Number(n) => if n >= 0 then EntrySignal.Decimal(n) else "-" + EntrySignal.Decimal(-n)
    case Name(text) => text
  }

  predicate Repairable(t: Ticket, known: map<string, Known>) {
    Text(t) in known && Positive(known[Text(t)].volume)
  }

  function Repair(row: Row, k: Known): Row
    requires row.Row?
  {
    row.(volume := k.volume, lots := k.volume, side := Some(k.direction))
  }

  // --------------------------------------------------------- specification

  /** Distinct tickets in first-seen order. */
  function Order(rows: seq<Row>): (order: seq<Ticket>)
    ensures Distinct(order)
    ensures forall t :: t in order <==> exists row <- rows :: row.Row? && row.ticket == t
  {
    if rows == [] then []
    else
      var init, last := rows[..|rows| - 1], rows[|rows| - 1];
      assert rows == init + [last];
      var order := Order(init);
      if last.Row? && last.ticket !in order then order + [last.ticket] else order
  }

  /** The rows of one ticket, in input order. */
  function Group(rows: seq<Row>, t: Ticket): (g: seq<Row>)
    ensures forall row <- g :: row in rows && row.Row? && row.ticket == t
    ensures (exists row <- rows :: row.Row? && row.ticket == t) ==> g != []
  {
    if rows == [] then []
    else
      var init, last := rows[..|rows| - 1], rows[|rows| - 1];
      assert rows == init + [last];
      Group(init, t) + if last.Row? && last.ticket == t then [last] else []
  }

  function FirstSane(g: seq<Row>): Option<Row> {
    if g == [] then None else if Sane(g[0]) then Some(g[0]) else FirstSane(g[1..])
  }

  /** The row kept for one ticket; None when its only row is corrupt and unknown. */
  function Choose(g: seq<Row>, t: Ticket, known: map<string, Known>): Option<Row>
    requires g != [] && forall row <- g :: row.Row?
  {
    if |g| == 1 then
      if Sane(g[0]) then Some(g[0])
      else if Repairable(t, known) then Some(Repair(g[0], known[Text(t)]))
      else None
    else if FirstSane(g).Some? then FirstSane(g)
    else Some(g[0])
  }

  function ChosenFor(rows: seq<Row>, t: Ticket, known: map<string, Known>): Option<Row>
    requires t in Order(rows)
  {
    Choose(Group(rows, t), t, known)
  }

  /** Kept rows and dropped ticket names of the tickets in `order`. */
  function Resolve(order: seq<Ticket>, rows: seq<Row>, known: map<string, Known>): (seq<Row>, seq<string>)
    requires forall t <- order :: t in Order(rows)
  {
    if order == [] then ([], [])
    else
      var t := order[|order| - 1];
      var (kept, dropped) := Resolve(order[..|order| - 1], rows, known);
      var row := ChosenFor(rows, t, known);
      if row.Some? then (kept + [row.value], dropped) else (kept, dropped + [Text(t)])
  }

  function Deduped(rows: seq<Row>, known: map<string, Known>): (seq<Row>, seq<string>) {
    Resolve(Order(rows), rows, known)
  }

  predicate SaneAndFirst(g: seq<Row>, i: nat) {
    i < |g| && Sane(g[i]) && forall j :: 0 <= j < i ==> !Sane(g[j])
  }

  lemma {:induction false} FirstSaneIs(g: seq<Row>)
    ensures FirstSane(g).Some? <==> exists row <- g :: Sane(row)
    ensures FirstSane(g).Some? ==> exists i: nat :: SaneAndFirst(g, i) && g[i] == FirstSane(g).value
  {
    if g != [] {
      if Sane(g[0]) {
        assert SaneAndFirst(g, 0) && g[0] in g;
      } else {
        FirstSaneIs(g[1..]);
        assert forall row <- g :: row == g[0] || row in g[1..];
        if FirstSane(g[1..]).Some? {
          var i: nat :| SaneAndFirst(g[1..], i) && g[1..][i] == FirstSane(g[1..]).value;
          assert SaneAndFirst(g, i + 1) && g[i + 1] == g[1..][i];
        }
      }
    }
  }

  /**
   * What the choice means: nothing is kept exactly of a lone, corrupt row the
   * log cannot repair; the first sane row wins whenever there is one; only a
   * lone corrupt row is rewritten, with the logged volume and side.
   */
  lemma ChoiceMeans(g: seq<Row>, t: Ticket, known: map<string, Known>)
    requires g != [] && forall row <- g :: row.Row?
    ensures var kept := Choose(g, t, known);
      && (kept.None? <==> |g| == 1 && !Sane(g[0]) && !Repairable(t, known))
      && ((exists row <- g :: Sane(row)) ==> kept.Some? && exists i: nat :: SaneAndFirst(g, i) && g[i] == kept.value)
      && (|g| > 1 && (forall row <- g :: !Sane(row)) ==> kept == Some(g[0]))
      && (|g| == 1 && !Sane(g[0]) && Repairable(t, known) ==>
            kept.Some? && kept.value.ticket == g[0].ticket && kept.value.lots == kept.value.volume == known[Text(t)].volume
            && kept.value.side == Some(known[Text(t)].direction))
  {
    FirstSaneIs(g);
    assert g[0] in g;
    if Sane(g[0]) {
      assert SaneAndFirst(g, 0);
    }
  }

  // ----------------------------------------------------------- the method

  /** First pass: file every position row under its ticket, remembering first-seen order. */
  method GroupRows(rows: seq<Row>) returns (byTicket: map<Ticket, seq<Row>>, order: seq<Ticket>)
    ensures order == Order(rows)
    ensures forall t :: t in byTicket <==> t in order
    ensures forall t <- byTicket :: byTicket[t] == Group(rows, t)
  {
    byTicket, order := map[], [];
    for i := 0 to |rows|
      invariant Filed(byTicket, order, rows[..i])
    {
      var row := rows[i];
      assert rows[..i + 1] == rows[..i] + [row];
      if row.Row? {
        ghost var before, listing := byTicket, order;
        if row.ticket !in byTicket {
          byTicket := byTicket[row.ticket := []];
          order := order + [row.ticket];
        }
        FiledNext(before, listing, rows[..i], row, byTicket, order);
        byTicket := byTicket[row.ticket := byTicket[row.ticket] + [row]];
      } else {
        FiledOther(byTicket, order, rows[..i], row);
      }
    }
    assert rows[..|rows|] == rows;
  }

  /** The rows seen so far are filed under their tickets. */
  ghost predicate Filed(byTicket: map<Ticket, seq<Row>>, order: seq<Ticket>, rows: seq<Row>) {
    && order == Order(rows)
    && (forall t :: t in byTicket <==> t in order)
    && (forall t <- byTicket :: byTicket[t] == Group(rows, t))
  }

  /** A row joins the rows of its ticket, once a ticket not seen yet has been given an empty list. */
  lemma FiledNext(byTicket: map<Ticket, seq<Row>>, order: seq<Ticket>, rows: seq<Row>, row: Row,
                  ready: map<Ticket, seq<Row>>, listing: seq<Ticket>)
    requires Filed(byTicket, order, rows) && row.Row?
    requires ready == (if row.ticket in byTicket then byTicket else byTicket[row.ticket := []])
    requires listing == (if row.ticket in byTicket then order else order + [row.ticket])
    ensures row.ticket in ready && Filed(ready[row.ticket := ready[row.ticket] + [row]], listing, rows + [row])
  {
    var after := ready[row.ticket := ready[row.ticket] + [row]];
    OrderNext(rows, row);
    forall t <- after ensures after[t] == Group(rows + [row], t) {
      GroupNext(rows, row, t);
      if t == row.ticket && t !in byTicket {
        GroupOfUnseenTicket(rows, t);
      }
    }
  }

  lemma GroupOfUnseenTicket(rows: seq<Row>, t: Ticket)
    requires t !in Order(rows)
    ensures Group(rows, t) == []
  {
    GroupOfUnseen(rows);
  }

  lemma FiledOther(byTicket: map<Ticket, seq<Row>>, order: seq<Ticket>, rows: seq<Row>, row: Row)
    requires Filed(byTicket, order, rows) && row.NotADict?
    ensures Filed(byTicket, order, rows + [row])
  {
    OrderNext(rows, row);
    forall t <- byTicket ensures byTicket[t] == Group(rows + [row], t) {
      GroupNext(rows, row, t);
    }
  }

  lemma OrderNext(rows: seq<Row>, row: Row)
    ensures Order(rows + [row])
         == if row.Row? && row.ticket !in Order(rows) then Order(rows) + [row.ticket] else Order(rows)
  {
    assert (rows + [row])[..|rows|] == rows;
  }

  lemma GroupNext(rows: seq<Row>, row: Row, t: Ticket)
    ensures Group(rows + [row], t) == Group(rows, t) + if row.Row? && row.ticket == t then [row] else []
  {
    assert (rows + [row])[..|rows|] == rows;
  }

  /** The decision for one ticket. */
  method ChooseRow(group: seq<Row>, t: Ticket, known: map<string, Known>) returns (kept: Option<Row>)
    requires group != [] && forall row <- group :: row.Row?
    ensures kept == Choose(group, t, known)
    ensures kept.None? <==> |group| == 1 && !Sane(group[0]) && !Repairable(t, known)
    ensures (exists row <- group :: Sane(row)) ==>
      kept.Some? && exists i: nat :: SaneAndFirst(group, i) && group[i] == kept.value
    ensures kept.Some? && kept.value !in group ==> |group| == 1 && !Sane(group[0]) && Repairable(t, known)
  {
    ChoiceMeans(group, t, known);
    FirstSaneIs(group);
    if |group| == 1 {
      var row := group[0];
      if PositionLots(row).None? {
        if Repairable(t, known) {
          kept := Some(Repair(row, known[Text(t)]));
        } else {
          kept := None;
        }
      } else {
        kept := Some(row);
      }
    } else {
      var sane := FirstSane(group);
      kept := if sane.Some? then sane else Some(group[0]);
    }
  }

  /** The decision for the rows filed under one ticket of a report. */
  method RowFor(ghost rows: seq<Row>, t: Ticket, group: seq<Row>, known: map<string, Known>) returns (kept: Option<Row>)
    requires t in Order(rows) && group == Group(rows, t)
    ensures kept == ChosenFor(rows, t, known)
  {
    kept := ChooseRow(group, t, known);
  }

  method DedupePositions(rows: seq<Row>, known: map<string, Known>) returns (result: seq<Row>, dropped: seq<string>)
    ensures (result, dropped) == Deduped(rows, known)
  {
    var byTicket, order := GroupRows(rows);
    result, dropped := [], [];
    for i := 0 to |order|
      invariant forall t <- order[..i] :: t in Order(rows)
      invariant (result, dropped) == Resolve(order[..i], rows, known)
    {
      var t := order[i];
      ResolveNext(rows, known, i);
      var kept := RowFor(rows, t, byTicket[t], known);
      if kept.Some? {
        result := result + [kept.value];
      } else {
        dropped := dropped + [Text(t)];
      }
    }
    assert order[..|order|] == order;
  }

  lemma PrefixNext(order: seq<Ticket>, i: nat)
    requires i < |order|
    ensures order[..i + 1] == order[..i] + [order[i]]
  {
  }

  lemma ResolveNext(rows: seq<Row>, known: map<string, Known>, i: nat)
    requires i < |Order(rows)|
    ensures var order := Order(rows);
      && order[i] in order && (forall t <- order[..i + 1] :: t in order)
      && var r := Resolve(order[..i], rows, known);
         Resolve(order[..i + 1], rows, known) == Extended(r.0, r.1, ChosenFor(rows, order[i], known), Text(order[i]))
  {
    PrefixNext(Order(rows), i);
    ResolveAppend(Order(rows)[..i], Order(rows)[i], rows, known);
  }

  lemma GroupOfUnseen(rows: seq<Row>)
    ensures forall t :: t !in Order(rows) ==> Group(rows, t) == []
  {
    forall t | t !in Order(rows) ensures Group(rows, t) == [] {
      if Group(rows, t) != [] {
        assert Group(rows, t)[0] in Group(rows, t);
      }
    }
  }

  // ------------------------------------------------------------ properties

  /** Row p is of ticket `t`, and no row up to p is of ticket `u`. */
  predicate SeenBefore(rows: seq<Row>, p: nat, t: Ticket, u: Ticket) {
    && p < |rows| && rows[p].Row? && rows[p].ticket == t
    && forall q :: 0 <= q <= p ==> !(rows[q].Row? && rows[q].ticket == u)
  }

  /** `Order` lists tickets by the position of their first row. */
  lemma {:induction false} OrderIsFirstSeen(rows: seq<Row>, i: nat, j: nat)
    requires i < j < |Order(rows)|
    ensures exists p: nat :: SeenBefore(rows, p, Order(rows)[i], Order(rows)[j])
  {
    var init := rows[..|rows| - 1];
    var t, u := Order(rows)[i], Order(rows)[j];
    if j < |Order(init)| {
      OrderIsFirstSeen(init, i, j);
      var p: nat :| SeenBefore(init, p, t, u);
      assert SeenBefore(rows, p, t, u);
    } else {
      assert t in Order(init);
      var row :| row in init && row.Row? && row.ticket == t;
      var p: nat :| p < |init| && init[p] == row;
      forall q | 0 <= q <= p ensures !(rows[q].Row? && rows[q].ticket == u) {
        assert rows[q] == init[q] && init[q] in init;
      }
      assert SeenBefore(rows, p, t, u);
    }
  }

  /** The tickets of `order` that keep a row, in order. */
  function KeptTickets(order: seq<Ticket>, rows: seq<Row>, known: map<string, Known>): seq<Ticket>
    requires forall t <- order :: t in Order(rows)
  {
    if order == [] then []
    else
      var t := order[|order| - 1];
      KeptTickets(order[..|order| - 1], rows, known) + if ChosenFor(rows, t, known).Some? then [t] else []
  }

  /** The row was in the input under its ticket, or is that ticket's only row, corrupt and repaired. */
  predicate Accounted(row: Row, rows: seq<Row>, known: map<string, Known>) {
    && row.Row? && row.ticket in Order(rows)
    && ChosenFor(rows, row.ticket, known) == Some(row)
    && (row in rows
        || (&& |Group(rows, row.ticket)| == 1 && !Sane(Group(rows, row.ticket)[0])
            && Repairable(row.ticket, known) && row == Repair(Group(rows, row.ticket)[0], known[Text(row.ticket)])))
  }

  lemma ChosenIsAccounted(rows: seq<Row>, t: Ticket, known: map<string, Known>)
    requires t in Order(rows) && ChosenFor(rows, t, known).Some?
    ensures ChosenFor(rows, t, known).value.Row? && ChosenFor(rows, t, known).value.ticket == t
    ensures Accounted(ChosenFor(rows, t, known).value, rows, known)
  {
    var g := Group(rows, t);
    FirstSaneIs(g);
    assert g[0] in g;
  }

  /** What a pass over `order` returns: one accounted row or one dropped name for each ticket. */
  predicate Partitions(kept: seq<Row>, dropped: seq<string>, order: seq<Ticket>, rows: seq<Row>, known: map<string, Known>)
    requires forall t <- order :: t in Order(rows)
  {
    && |kept| + |dropped| == |order|
    && (forall row <- kept :: Accounted(row, rows, known))
    && TicketsOf(kept) == KeptTickets(order, rows, known)
    && (forall name <- dropped :: exists t <- order :: name == Text(t) && ChosenFor(rows, t, known).None?)
  }

  lemma {:induction false} ResolveShape(order: seq<Ticket>, rows: seq<Row>, known: map<string, Known>)
    requires forall t <- order :: t in Order(rows)
    ensures var (kept, dropped) := Resolve(order, rows, known); Partitions(kept, dropped, order, rows, known)
  {
    if order != [] {
      var t, init := order[|order| - 1], order[..|order| - 1];
      assert order == init + [t];
      ResolveShape(init, rows, known);
      var r := Resolve(init, rows, known);
      if ChosenFor(rows, t, known).Some? {
        KeptExtends(r.0, r.1, init, t, rows, known);
      } else {
        DroppedExtends(r.0, r.1, init, t, rows, known);
      }
    }
  }

  lemma KeptExtends(kept: seq<Row>, dropped: seq<string>, init: seq<Ticket>, t: Ticket,
                    rows: seq<Row>, known: map<string, Known>)
    requires (forall u <- init + [t] :: u in Order(rows)) && (forall u <- init :: u in Order(rows)) && t in Order(rows)
    requires Partitions(kept, dropped, init, rows, known) && ChosenFor(rows, t, known).Some?
    ensures Partitions(kept + [ChosenFor(rows, t, known).value], dropped, init + [t], rows, known)
  {
    var row, order := ChosenFor(rows, t, known).value, init + [t];
    ChosenIsAccounted(rows, t, known);
    TicketsOfAppend(kept, row);
    assert order[..|order| - 1] == init && order[|order| - 1] == t;
    forall name <- dropped ensures exists u <- order :: name == Text(u) && ChosenFor(rows, u, known).None? {
      var u :| u in init && name == Text(u) && ChosenFor(rows, u, known).None?;
      assert u in order;
    }
  }

  lemma DroppedExtends(kept: seq<Row>, dropped: seq<string>, init: seq<Ticket>, t: Ticket,
                       rows: seq<Row>, known: map<string, Known>)
    requires (forall u <- init + [t] :: u in Order(rows)) && (forall u <- init :: u in Order(rows)) && t in Order(rows)
    requires Partitions(kept, dropped, init, rows, known) && ChosenFor(rows, t, known).None?
    ensures Partitions(kept, dropped + [Text(t)], init + [t], rows, known)
  {
    var order := init + [t];
    assert order[..|order| - 1] == init && order[|order| - 1] == t;
    forall name <- dropped + [Text(t)] ensures exists u <- order :: name == Text(u) && ChosenFor(rows, u, known).None? {
      if name in dropped {
        var u :| u in init && name == Text(u) && ChosenFor(rows, u, known).None?;
        assert u in order;
      } else {
        assert t in order;
      }
    }
  }

  function TicketsOf(rows: seq<Row>): (ts: seq<Ticket>)
    ensures |ts| == |rows|
    ensures forall i :: 0 <= i < |rows| && rows[i].Row? ==> ts[i] == rows[i].ticket
  {
    seq(|rows|, i requires 0 <= i < |rows| => if rows[i].Row? then rows[i].ticket else Missing)
  }

  lemma TicketsOfAppend(rows: seq<Row>, row: Row)
    requires row.Row?
    ensures TicketsOf(rows + [row]) == TicketsOf(rows) + [row.ticket]
  {
  }

  /**
   * Every distinct ticket ends as exactly one output row or one dropped name,
   * outputs follow first-seen order, and only a lone corrupt row with a usable
   * log record is rewritten.
   */
  lemma DedupePartitionsTickets(rows: seq<Row>, known: map<string, Known>)
    ensures var (kept, dropped) := Deduped(rows, known);
      && |kept| + |dropped| == |Order(rows)|
      && TicketsOf(kept) == KeptTickets(Order(rows), rows, known)
      && (forall row <- kept :: Accounted(row, rows, known))
      && (forall name <- dropped :: exists t <- Order(rows) :: name == Text(t) && ChosenFor(rows, t, known).None?)
  {
    ResolveShape(Order(rows), rows, known);
  }

  /** The account looks flat exactly when the report held no position row at all. */
  lemma LooksFlatIff(rows: seq<Row>, known: map<string, Known>)
    ensures Deduped(rows, known) == ([], []) <==> forall row <- rows :: row.NotADict?
  {
    ResolveShape(Order(rows), rows, known);
    if Order(rows) != [] {
      assert Order(rows)[0] in Order(rows);
    }
    if row :| row in rows && row.Row? {
      assert row.ticket in Order(rows);
    }
  }

  predicate DistinctRows(rows: seq<Row>) {
    && (forall row <- rows :: row.Row?)
    && (forall i, j :: 0 <= i < j < |rows| ==> rows[i].Row? && rows[j].Row? && rows[i].ticket != rows[j].ticket)
  }

  lemma {:induction false} DistinctRowsAlone(rows: seq<Row>)
    requires DistinctRows(rows)
    ensures Order(rows) == TicketsOf(rows)
    ensures forall row <- rows :: Group(rows, row.ticket) == [row]
    ensures forall t :: t !in Order(rows) ==> Group(rows, t) == []
  {
    GroupOfUnseen(rows);
    if rows != [] {
      var init, last := rows[..|rows| - 1], rows[|rows| - 1];
      assert rows == init + [last];
      DistinctInit(init, last);
      DistinctRowsAlone(init);
      TicketsOfAppend(init, last);
    }
  }

  lemma DistinctInit(init: seq<Row>, last: Row)
    requires DistinctRows(init + [last])
    ensures DistinctRows(init) && last.Row? && forall row <- init :: row.Row? && row.ticket != last.ticket
  {
    var rows := init + [last];
    assert last in rows && forall row <- init :: row in rows;
    forall i | 0 <= i < |init| ensures init[i].Row? && init[i].ticket != last.ticket {
      assert rows[i] == init[i] && rows[|init|] == last;
    }
    forall i, j | 0 <= i < j < |init| ensures init[i].Row? && init[j].Row? && init[i].ticket != init[j].ticket {
      assert rows[i] == init[i] && rows[j] == init[j];
    }
  }

  /** Alone in the report, a row is kept as it is exactly when it is sane. */
  lemma LoneRowKeptIff(rows: seq<Row>, known: map<string, Known>, row: Row)
    requires DistinctRows(rows) && row in rows
    ensures row.ticket in Order(rows) && (ChosenFor(rows, row.ticket, known) == Some(row) <==> Sane(row))
  {
    DistinctRowsAlone(rows);
    assert Group(rows, row.ticket) == [row];
  }

  lemma ResolveAppend(init: seq<Ticket>, t: Ticket, rows: seq<Row>, known: map<string, Known>)
    requires t in Order(rows) && forall u <- init :: u in Order(rows)
    ensures forall u <- init + [t] :: u in Order(rows)
    ensures Resolve(init + [t], rows, known)
         == Extended(Resolve(init, rows, known).0, Resolve(init, rows, known).1, ChosenFor(rows, t, known), Text(t))
  {
    assert (init + [t])[..|init + [t]| - 1] == init;
  }

  function Extended(kept: seq<Row>, dropped: seq<string>, chosen: Option<Row>, name: string): (seq<Row>, seq<string>) {
    if chosen.Some? then (kept + [chosen.value], dropped) else (kept, dropped + [name])
  }

  lemma ExtendedIs(kept: seq<Row>, dropped: seq<string>, chosen: Option<Row>, name: string, init: seq<Row>, last: Row)
    ensures Extended(kept, dropped, chosen, name) == (init + [last], [])
       <==> kept == init && dropped == [] && chosen == Some(last)
  {
    if chosen.Some? {
      assert (kept + [chosen.value])[..|kept|] == kept && (init + [last])[..|init|] == init;
      assert (kept + [chosen.value])[|kept|] == chosen.value && (init + [last])[|init|] == last;
    }
  }

  predicate KeptIffSane(row: Row, rows: seq<Row>, known: map<string, Known>) {
    row.Row? && row.ticket in Order(rows) && (ChosenFor(rows, row.ticket, known) == Some(row) <==> Sane(row))
  }

  lemma AllSaneAppend(init: seq<Row>, last: Row)
    ensures (forall row <- init + [last] :: Sane(row)) <==> Sane(last) && forall row <- init :: Sane(row)
  {
    assert forall row :: row in init + [last] <==> row in init || row == last;
  }

  lemma {:induction false} ResolveLoneRows(rows: seq<Row>, known: map<string, Known>, part: seq<Row>)
    requires forall row <- part :: KeptIffSane(row, rows, known)
    ensures forall t <- TicketsOf(part) :: t in Order(rows)
    ensures Resolve(TicketsOf(part), rows, known) == (part, []) <==> forall row <- part :: Sane(row)
    decreases |part|
  {
    if part != [] {
      var init, last := part[..|part| - 1], part[|part| - 1];
      assert part == init + [last] && KeptIffSane(last, rows, known);
      ResolveLoneRows(rows, known, init);
      ResolveLast(rows, known, init, last);
      AllSaneAppend(init, last);
    }
  }

  lemma ResolveLast(rows: seq<Row>, known: map<string, Known>, init: seq<Row>, last: Row)
    requires (forall t <- TicketsOf(init) :: t in Order(rows)) && KeptIffSane(last, rows, known)
    ensures forall t <- TicketsOf(init + [last]) :: t in Order(rows)
    ensures Resolve(TicketsOf(init + [last]), rows, known) == (init + [last], [])
       <==> Resolve(TicketsOf(init), rows, known) == (init, []) && Sane(last)
  {
    TicketsOfAppend(init, last);
    ResolveAppend(TicketsOf(init), last.ticket, rows, known);
    var r := Resolve(TicketsOf(init), rows, known);
    ExtendedIs(r.0, r.1, ChosenFor(rows, last.ticket, known), Text(last.ticket), init, last);
  }

  lemma KeptRowsAreDistinct(rows: seq<Row>, known: map<string, Known>)
    ensures DistinctRows(Deduped(rows, known).0)
  {
    ResolveShape(Order(rows), rows, known);
    KeptTicketsAreDistinct(Order(rows), rows, known);
    var kept := Deduped(rows, known).0;
    forall i | 0 <= i < |kept| ensures kept[i].Row? && kept[i].ticket == TicketsOf(kept)[i] {
      assert kept[i] in kept && Accounted(kept[i], rows, known);
    }
  }

  lemma {:induction false} KeptTicketsAreDistinct(order: seq<Ticket>, rows: seq<Row>, known: map<string, Known>)
    requires forall t <- order :: t in Order(rows)
    requires Distinct(order)
    ensures forall t <- KeptTickets(order, rows, known) :: t in order
    ensures Distinct(KeptTickets(order, rows, known))
  {
    if order != [] {
      var init, last := order[..|order| - 1], order[|order| - 1];
      assert order == init + [last];
      KeptTicketsAreDistinct(init, rows, known);
      var ts := KeptTickets(init, rows, known);
      forall i | 0 <= i < |ts| ensures ts[i] != last {
        assert ts[i] in init;
        var j :| 0 <= j < |init| && init[j] == ts[i];
        assert order[j] == ts[i] && order[|order| - 1] == last;
      }
    }
  }

  /** A second pass changes nothing exactly when every duplicated ticket has a sane row. */
  lemma SecondPassIsIdentityIff(rows: seq<Row>, known: map<string, Known>)
    ensures var (kept, _) := Deduped(rows, known);
      Deduped(kept, known) == (kept, [])
      <==> (forall t <- Order(rows) :: |Group(rows, t)| > 1 ==> exists row <- Group(rows, t) :: Sane(row))
  {
    var kept := Deduped(rows, known).0;
    KeptRowsAreDistinct(rows, known);
    DistinctRowsAlone(kept);
    forall row <- kept ensures KeptIffSane(row, kept, known) {
      LoneRowKeptIff(kept, known, row);
    }
    ResolveLoneRows(kept, known, kept);
    AllKeptSaneIff(rows, known);
  }

  predicate Vouched(g: seq<Row>) {
    |g| > 1 ==> exists row <- g :: Sane(row)
  }

  lemma ChosenIsSaneIff(rows: seq<Row>, known: map<string, Known>, t: Ticket)
    requires t in Order(rows)
    ensures ChosenFor(rows, t, known).None? ==> Vouched(Group(rows, t))
    ensures ChosenFor(rows, t, known).Some? ==>
      (Sane(ChosenFor(rows, t, known).value) <==> Vouched(Group(rows, t)))
  {
    var g := Group(rows, t);
    FirstSaneIs(g);
    if |g| > 1 && Sane(g[0]) {
      assert g[0] in g;
    }
  }

  lemma AllKeptSaneIff(rows: seq<Row>, known: map<string, Known>)
    ensures (forall row <- Deduped(rows, known).0 :: Sane(row)) <==> forall t <- Order(rows) :: Vouched(Group(rows, t))
  {
    var kept := Deduped(rows, known).0;
    forall t <- Order(rows) | forall row <- kept :: Sane(row) ensures Vouched(Group(rows, t)) {
      ChosenIsSaneIff(rows, known, t);
      if ChosenFor(rows, t, known).Some? {
        EveryChosenIsKept(Order(rows), rows, known, t);
      }
    }
    ResolveShape(Order(rows), rows, known);
    forall row <- kept | forall t <- Order(rows) :: Vouched(Group(rows, t)) ensures Sane(row) {
      assert Accounted(row, rows, known);
      ChosenIsSaneIff(rows, known, row.ticket);
    }
  }

  lemma {:induction false} EveryChosenIsKept(order: seq<Ticket>, rows: seq<Row>, known: map<string, Known>, t: Ticket)
    requires (forall u <- order :: u in Order(rows)) && t in order && ChosenFor(rows, t, known).Some?
    ensures ChosenFor(rows, t, known).value in Resolve(order, rows, known).0
  {
    var last := order[|order| - 1];
    if t != last {
      assert order == order[..|order| - 1] + [last];
      EveryChosenIsKept(order[..|order| - 1], rows, known, t);
    }
  }
}
