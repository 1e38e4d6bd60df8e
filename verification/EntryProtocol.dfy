// Several engines placing orders for the same candles: a lock and a set of
// attempted signals in each engine, one shared SET-NX key store, one broker.
// Every interleaving of their steps, with crashes, lost replies, an
// unreachable store and inaccurate broker reports, is a run of this machine.
module EntryProtocol {
  import opened Options
  import opened Market
  import opened Sets
  import StrategySlots

  type Instant = int
  type EngineId = nat

  const CLAIM_TTL: int := 7 * 24 * 60 * 60
  const STALE_AFTER: int := 2 * 60 * 60

  /** One closed candle of one timeframe; the string ids name exactly these. */
  datatype Signal = Signal(timeframe: string, candleTime: Instant)

  /** `tag` is the signal in the order comment; `own` that it carries the active slot tag. */
  datatype Position = Position(tag: Option<Signal>, direction: Option<Direction>, own: bool)

  /** Where one engine stands inside its entry lock. */
  datatype Phase =
    | Idle
    | Entered(sig: Signal, direction: Direction, checkedAt: Instant)
    | Cleared(sig: Signal, direction: Direction, checkedAt: Instant)
    | Claimed(sig: Signal, direction: Direction)
    | Replied(sig: Signal)

  datatype Engine = Engine(attempted: set<Signal>, phase: Phase)

  datatype World = World(
    now: Instant,
    claims: map<Signal, Instant>,       // key and expiry in the shared store
    engines: map<EngineId, Engine>,
    open: seq<Position>,
    sent: seq<Signal>)                  // every order request that left an engine

  /**
   * `shared` is whether a key store is configured.  `maxDelay` bounds the time
   * an engine spends between checking a candle's age and claiming its signal,
   * `maxLead` how far the broker may stamp a candle ahead of the engines' clock.
   */
  datatype Config = Config(shared: bool, maxDelay: nat, maxLead: nat, maxOpen: nat, hedging: bool)

  datatype Report = Failed | Report(rows: seq<Position>, dropped: bool)

  /** What the caller of SET NX sees; an unreachable store may still have applied it. */
  datatype Answer = Won | Lost | Unreachable(applied: bool)

  datatype Step =
    | Wait(seconds: nat)
    | Begin(e: EngineId, sig: Signal, direction: Direction, checkedAt: Instant)
    | Poll(e: EngineId, report: Report)
    | Refuse(e: EngineId)
    | Claim(e: EngineId, answer: Answer)
    | Send(e: EngineId, leaves: bool, filled: bool)
    | Mark(e: EngineId, applied: bool)
    | Crash(e: EngineId)
    | BrokerClose(index: nat)

  // -------------------------------------------------------------- guards

  predicate Held(w: World, sig: Signal) {
    sig in w.claims && w.now < w.claims[sig]
  }

  predicate OneWayOk(rows: seq<Position>, d: Direction, hedging: bool) {
    hedging || forall p <- rows :: p.direction == Some(d)
  }

  predicate SlotsOk(rows: seq<Position>, maxOpen: nat) {
    |rows| < maxOpen && forall p <- rows :: p.own
  }

  /** A broker row as the protocol sees it; `tagOf` reads the candle tag of a comment. */
  function AsSeen(p: StrategySlots.Position, tagOf: string -> Option<Signal>): Position {
    Position(tagOf(p.comment), p.direction, StrategySlots.IsActive(p.comment))
  }

  lemma OneWayReadsDirections(rows: seq<StrategySlots.Position>, seen: seq<Position>, d: Direction)
    requires |seen| == |rows| && forall i :: 0 <= i < |rows| ==> seen[i].direction == rows[i].direction
    ensures OneWayOk(seen, d, false) <==> StrategySlots.AllFacing(rows, d)
  {
    forall i | 0 <= i < |rows| ensures seen[i] in seen && rows[i] in rows {
    }
  }

  lemma SlotsReadComments(rows: seq<StrategySlots.Position>, seen: seq<Position>, maxOpen: nat)
    requires |seen| == |rows| && forall i :: 0 <= i < |rows| ==> seen[i].own == StrategySlots.IsActive(rows[i].comment)
    ensures SlotsOk(seen, maxOpen) <==> |rows| < maxOpen && forall p <- rows :: StrategySlots.IsActive(p.comment)
  {
    forall i | 0 <= i < |rows| ensures seen[i] in seen && rows[i] in rows {
    }
  }

  predicate PassesGuards(cfg: Config, rows: seq<Position>, dropped: bool, d: Direction) {
    !dropped && OneWayOk(rows, d, cfg.hedging) && SlotsOk(rows, cfg.maxOpen)
  }

  predicate Enabled(cfg: Config, w: World, s: Step) {
    match s
    case Wait(_) => true
    case Begin(e, sig, _, checkedAt) =>
      && e in w.engines && w.engines[e].phase.Idle?
      && sig.candleTime <= checkedAt + cfg.maxLead && checkedAt <= w.now
      && checkedAt <= sig.candleTime + STALE_AFTER
    case Poll(e, _) => e in w.engines && w.engines[e].phase.Entered?
    case Refuse(e) => e in w.engines && (w.engines[e].phase.Entered? || w.engines[e].phase.Cleared?)
    case Claim(e, answer) =>
      && e in w.engines && w.engines[e].phase.Cleared?
      && w.now - w.engines[e].phase.checkedAt <= cfg.maxDelay
      && (cfg.shared && Held(w, w.engines[e].phase.sig) ==> !answer.Won? && answer != Unreachable(true))
      && (cfg.shared && !Held(w, w.engines[e].phase.sig) ==> !answer.Lost?)
      && (!cfg.shared ==> answer.Won?)
    case Send(e, leaves, filled) => e in w.engines && w.engines[e].phase.Claimed? && (filled ==> leaves)
    case Mark(e, _) => e in w.engines && w.engines[e].phase.Replied?
    case Crash(e) => e in w.engines
    case BrokerClose(index) => index < |w.open|
  }

  // --------------------------------------------------------------- steps

  function Put(w: World, e: EngineId, x: Engine): World {
    w.(engines := w.engines[e := x])
  }

  function AfterPoll(cfg: Config, x: Engine, report: Report): Engine
    requires x.phase.Entered?
  {
    var Entered(sig, d, checkedAt) := x.phase;
    if report.Failed? then x.(phase := Idle)
    else if exists p <- report.rows :: p.tag == Some(sig) then Engine(x.attempted + {sig}, Idle)
    else if !PassesGuards(cfg, report.rows, report.dropped, d) then x.(phase := Idle)
    else x.(phase := Cleared(sig, d, checkedAt))
  }

  /**
   * On a report of the broker's own rows a poll clears its candle exactly when no
   * comment carries that candle, nothing was dropped, and the live one-way and slot
   * guards pass; a comment that does carry it shuts the candle, and a failed report
   * ends the attempt without shutting it.
   */
  lemma GuardsAreTheLiveGuards(cfg: Config, x: Engine, rows: seq<StrategySlots.Position>, dropped: bool,
                               tagOf: string -> Option<Signal>)
    requires x.phase.Entered?
    ensures var seen := seq(|rows|, i requires 0 <= i < |rows| => AsSeen(rows[i], tagOf));
      var next, traded := AfterPoll(cfg, x, Report(seen, dropped)), exists p <- rows :: tagOf(p.comment) == Some(x.phase.sig);
      && (next.phase.Cleared? <==>
            && !traded && !dropped && (cfg.hedging || StrategySlots.AllFacing(rows, x.phase.direction))
            && StrategySlots.AvailableForStrategySlots(rows, true, cfg.maxOpen).Available?)
      && (!next.phase.Cleared? ==> next.phase.Idle?)
      && next.attempted == (if traded then x.attempted + {x.phase.sig} else x.attempted)
    ensures AfterPoll(cfg, x, Failed) == Engine(x.attempted, Idle)
  {
    var seen := seq(|rows|, i requires 0 <= i < |rows| => AsSeen(rows[i], tagOf));
    TagsReadComments(rows, seen, tagOf, x.phase.sig);
    OneWayReadsDirections(rows, seen, x.phase.direction);
    SlotsReadComments(rows, seen, cfg.maxOpen);
  }

  lemma TagsReadComments(rows: seq<StrategySlots.Position>, seen: seq<Position>, tagOf: string -> Option<Signal>, sig: Signal)
    requires |seen| == |rows| && forall i :: 0 <= i < |rows| ==> seen[i].tag == tagOf(rows[i].comment)
    ensures (exists p <- seen :: p.tag == Some(sig)) <==> (exists p <- rows :: tagOf(p.comment) == Some(sig))
  {
    forall i | 0 <= i < |rows| ensures seen[i] in seen && rows[i] in rows {
    }
  }

  function Next(cfg: Config, w: World, s: Step): World
    requires Enabled(cfg, w, s)
  {
    match s
    case Wait(seconds) => w.(now := w.now + seconds)
    case Begin(e, sig, d, checkedAt) =>
      var x := w.engines[e];
      if sig in x.attempted then w else Put(w, e, x.(phase := Entered(sig, d, checkedAt)))
    case Poll(e, report) => Put(w, e, AfterPoll(cfg, w.engines[e], report))
    case Refuse(e) => Put(w, e, w.engines[e].(phase := Idle))
    case Claim(e, answer) =>
      var x := w.engines[e];
      var Cleared(sig, d, _) := x.phase;
      var tried := x.attempted + {sig};
      if !cfg.shared then Put(w, e, Engine(tried, Claimed(sig, d)))
      else
        (match answer
         case Won => Put(w.(claims := w.claims[sig := w.now + CLAIM_TTL]), e, Engine(tried, Claimed(sig, d)))
         case Lost => Put(w, e, Engine(tried, Idle))
         case Unreachable(applied) =>
           Put(if applied then w.(claims := w.claims[sig := w.now + CLAIM_TTL]) else w, e, x.(phase := Idle)))
    case Send(e, leaves, filled) =>
      var x := w.engines[e];
      var Claimed(sig, d) := x.phase;
      var w1 := Put(w, e, x.(phase := Replied(sig)));
      w1.(sent := if leaves then w.sent + [sig] else w.sent,
          open := if filled then w.open + [Position(Some(sig), Some(d), true)] else w.open)
    case Mark(e, applied) =>
      var x := w.engines[e];
      var w1 := Put(w, e, x.(phase := Idle));
      if cfg.shared && applied then w1.(claims := w.claims[x.phase.sig := w.now + CLAIM_TTL]) else w1
    case Crash(e) => Put(w, e, Engine({}, Idle))
    case BrokerClose(index) => w.(open := w.open[..index] + w.open[index + 1..])
  }

  predicate IsRun(cfg: Config, w: World, steps: seq<Step>)
    decreases |steps|
  {
    steps != [] ==> Enabled(cfg, w, steps[0]) && IsRun(cfg, Next(cfg, w, steps[0]), steps[1..])
  }

  function Run(cfg: Config, w: World, steps: seq<Step>): World
    requires IsRun(cfg, w, steps)
    decreases |steps|
  {
    if steps == [] then w else Run(cfg, Next(cfg, w, steps[0]), steps[1..])
  }

  /** No engine has begun, nothing was sent; keys and positions may already exist. */
  predicate Initial(w: World) {
    w.sent == [] && forall e <- w.engines :: w.engines[e].phase.Idle?
  }

  // -------------------------------------------------- at most one request

  /** Engine `x` holds the claim of `sig` and has not sent it yet. */
  predicate Holds(x: Engine, sig: Signal) {
    x.phase.Claimed? && x.phase.sig == sig
  }

  /** The key of `sig` lives for the whole lifetime of a key set when its candle first appeared. */
  predicate Guarded(claims: map<Signal, Instant>, sig: Signal, lead: nat) {
    sig in claims && claims[sig] >= sig.candleTime - lead + CLAIM_TTL
  }

  /** The age check was read on a candle stamped at most `lead` ahead and not yet stale. */
  predicate FreshAt(sig: Signal, checkedAt: Instant, now: Instant, lead: nat) {
    sig.candleTime - lead <= checkedAt <= now && checkedAt <= sig.candleTime + STALE_AFTER
  }

  predicate EngineSafe(now: Instant, claims: map<Signal, Instant>, sent: seq<Signal>, x: Engine, lead: nat) {
    match x.phase
    case Idle => true
    case Entered(sig, _, checkedAt) => FreshAt(sig, checkedAt, now, lead)
    case Cleared(sig, _, checkedAt) => FreshAt(sig, checkedAt, now, lead)
    case Claimed(sig, _) => sig.candleTime - lead <= now && Guarded(claims, sig, lead) && sig !in sent
    case Replied(sig) => sig.candleTime - lead <= now
  }

  ghost predicate ClaimSafe(w: World, lead: nat) {
    && Distinct(w.sent)
    && (forall sig <- w.sent :: Guarded(w.claims, sig, lead))
    && (forall e <- w.engines :: EngineSafe(w.now, w.claims, w.sent, w.engines[e], lead))
    && (forall e, f | e in w.engines && f in w.engines && e != f && w.engines[e].phase.Claimed? ::
          !Holds(w.engines[f], w.engines[e].phase.sig))
  }

  predicate Extends(before: map<Signal, Instant>, after: map<Signal, Instant>, lead: nat) {
    forall sig <- before :: Guarded(before, sig, lead) ==> Guarded(after, sig, lead)
  }

  lemma RenewalExtends(claims: map<Signal, Instant>, sig: Signal, now: Instant, lead: nat)
    requires sig.candleTime - lead <= now
    ensures Extends(claims, claims[sig := now + CLAIM_TTL], lead)
    ensures Guarded(claims[sig := now + CLAIM_TTL], sig, lead)
  {
  }

  /** Time passing and keys being renewed leave a safe world safe. */
  lemma RenewedWorldIsSafe(w: World, now: Instant, claims: map<Signal, Instant>, lead: nat)
    requires ClaimSafe(w, lead) && w.now <= now && Extends(w.claims, claims, lead)
    ensures ClaimSafe(w.(now := now, claims := claims), lead)
  {
  }

  /** An engine may move to any safe phase in which it holds no claim. */
  lemma PutIsSafe(w: World, e: EngineId, x: Engine, lead: nat)
    requires ClaimSafe(w, lead) && e in w.engines
    requires EngineSafe(w.now, w.claims, w.sent, x, lead) && !x.phase.Claimed?
    ensures ClaimSafe(Put(w, e, x), lead)
  {
  }

  /** An engine may take a claim nobody holds and nobody has sent. */
  lemma TakeIsSafe(w: World, e: EngineId, x: Engine, lead: nat)
    requires ClaimSafe(w, lead) && e in w.engines
    requires EngineSafe(w.now, w.claims, w.sent, x, lead) && x.phase.Claimed?
    requires forall f <- w.engines :: !Holds(w.engines[f], x.phase.sig)
    ensures ClaimSafe(Put(w, e, x), lead)
  {
  }

  /** Marking an outcome, like every other step, never shortens or drops a guarding claim. */
  lemma ClaimsOnlyGrow(cfg: Config, w: World, s: Step)
    requires Enabled(cfg, w, s) && ClaimSafe(w, cfg.maxLead)
    ensures Extends(w.claims, Next(cfg, w, s).claims, cfg.maxLead)
  {
    match s {
      case Claim(e, answer) => assert EngineSafe(w.now, w.claims, w.sent, w.engines[e], cfg.maxLead);
      case Mark(e, _) => assert EngineSafe(w.now, w.claims, w.sent, w.engines[e], cfg.maxLead);
      case _ =>
    }
  }

  /** A signal that was claimed before is still held when anyone may claim it again. */
  lemma GuardedIsHeld(cfg: Config, w: World, sig: Signal, checkedAt: Instant)
    requires cfg.maxDelay + cfg.maxLead < CLAIM_TTL - STALE_AFTER && Guarded(w.claims, sig, cfg.maxLead)
    requires checkedAt <= sig.candleTime + STALE_AFTER && w.now - checkedAt <= cfg.maxDelay
    ensures Held(w, sig)
  {
  }

  lemma ClaimKeepsSafe(cfg: Config, w: World, s: Step)
    requires cfg.shared && cfg.maxDelay + cfg.maxLead < CLAIM_TTL - STALE_AFTER
    requires s.Claim? && Enabled(cfg, w, s) && ClaimSafe(w, cfg.maxLead)
    ensures ClaimSafe(Next(cfg, w, s), cfg.maxLead)
  {
    var x := w.engines[s.e];
    var Cleared(sig, d, checkedAt) := x.phase;
    assert EngineSafe(w.now, w.claims, w.sent, x, cfg.maxLead);
    RenewalExtends(w.claims, sig, w.now, cfg.maxLead);
    var renewed := w.(claims := w.claims[sig := w.now + CLAIM_TTL]);
    RenewedWorldIsSafe(w, w.now, renewed.claims, cfg.maxLead);
    match s.answer {
      case Won =>
        WonSignalIsNew(cfg, w, sig, checkedAt);
        TakeIsSafe(renewed, s.e, Engine(x.attempted + {sig}, Claimed(sig, d)), cfg.maxLead);
      case Lost => PutIsSafe(w, s.e, Engine(x.attempted + {sig}, Idle), cfg.maxLead);
      case Unreachable(applied) => PutIsSafe(if applied then renewed else w, s.e, x.(phase := Idle), cfg.maxLead);
    }
  }

  /** A signal whose key is free was neither sent nor claimed by anyone. */
  lemma WonSignalIsNew(cfg: Config, w: World, sig: Signal, checkedAt: Instant)
    requires cfg.maxDelay + cfg.maxLead < CLAIM_TTL - STALE_AFTER && ClaimSafe(w, cfg.maxLead) && !Held(w, sig)
    requires checkedAt <= sig.candleTime + STALE_AFTER && w.now - checkedAt <= cfg.maxDelay
    ensures sig !in w.sent && forall f <- w.engines :: !Holds(w.engines[f], sig)
  {
    if Guarded(w.claims, sig, cfg.maxLead) {
      GuardedIsHeld(cfg, w, sig, checkedAt);
    }
    forall f <- w.engines ensures !Holds(w.engines[f], sig) {
      assert EngineSafe(w.now, w.claims, w.sent, w.engines[f], cfg.maxLead);
    }
  }

  lemma SendKeepsSafe(cfg: Config, w: World, s: Step)
    requires s.Send? && Enabled(cfg, w, s) && ClaimSafe(w, cfg.maxLead)
    ensures ClaimSafe(Next(cfg, w, s), cfg.maxLead)
  {
    var x := w.engines[s.e];
    var sig := x.phase.sig;
    assert EngineSafe(w.now, w.claims, w.sent, x, cfg.maxLead);
    PutIsSafe(w, s.e, x.(phase := Replied(sig)), cfg.maxLead);
    var w1, w2 := Put(w, s.e, x.(phase := Replied(sig))), Next(cfg, w, s);
    forall f <- w2.engines ensures EngineSafe(w2.now, w2.claims, w2.sent, w2.engines[f], cfg.maxLead) {
      assert EngineSafe(w1.now, w1.claims, w1.sent, w1.engines[f], cfg.maxLead);
      assert f != s.e ==> !Holds(w.engines[f], sig);
    }
  }

  lemma StepKeepsClaimSafe(cfg: Config, w: World, s: Step)
    requires cfg.shared && cfg.maxDelay + cfg.maxLead < CLAIM_TTL - STALE_AFTER
    requires Enabled(cfg, w, s) && ClaimSafe(w, cfg.maxLead)
    ensures ClaimSafe(Next(cfg, w, s), cfg.maxLead)
  {
    match s {
      case Wait(seconds) => RenewedWorldIsSafe(w, w.now + seconds, w.claims, cfg.maxLead);
      case Begin(e, sig, d, checkedAt) => PutIsSafe(w, e, w.engines[e].(phase := Entered(sig, d, checkedAt)), cfg.maxLead);
      case Poll(e, report) =>
        assert EngineSafe(w.now, w.claims, w.sent, w.engines[e], cfg.maxLead);
        PutIsSafe(w, e, AfterPoll(cfg, w.engines[e], report), cfg.maxLead);
      case Refuse(e) => PutIsSafe(w, e, w.engines[e].(phase := Idle), cfg.maxLead);
      case Claim(_, _) => ClaimKeepsSafe(cfg, w, s);
      case Send(_, _, _) => SendKeepsSafe(cfg, w, s);
      case Mark(e, applied) =>
        ClaimsOnlyGrow(cfg, w, s);
        PutIsSafe(w, e, w.engines[e].(phase := Idle), cfg.maxLead);
        RenewedWorldIsSafe(Put(w, e, w.engines[e].(phase := Idle)), w.now, Next(cfg, w, s).claims, cfg.maxLead);
      case Crash(e) => PutIsSafe(w, e, Engine({}, Idle), cfg.maxLead);
      case BrokerClose(_) =>
    }
  }

  /**
   * With a shared store, no interleaving of any number of engines sends two
   * requests for one signal, provided the time from age check to claim and the
   * lead of candle stamps together stay below what the key's life leaves after
   * the trading window.
   */
  lemma {:induction false} AtMostOneRequest(cfg: Config, w: World, steps: seq<Step>)
    requires cfg.shared && cfg.maxDelay + cfg.maxLead < CLAIM_TTL - STALE_AFTER
    requires ClaimSafe(w, cfg.maxLead) && IsRun(cfg, w, steps)
    ensures ClaimSafe(Run(cfg, w, steps), cfg.maxLead) && Distinct(Run(cfg, w, steps).sent)
    decreases |steps|
  {
    if steps != [] {
      StepKeepsClaimSafe(cfg, w, steps[0]);
      AtMostOneRequest(cfg, Next(cfg, w, steps[0]), steps[1..]);
    }
  }

  lemma InitialIsClaimSafe(w: World, lead: nat)
    requires Initial(w)
    ensures ClaimSafe(w, lead)
  {
  }

  // ------------------------------------------------------ the key's lifetime

  lemma {:induction false} KeyIsKept(cfg: Config, w: World, sig: Signal, since: Instant, steps: seq<Step>)
    requires sig in w.claims && w.claims[sig] >= since + CLAIM_TTL && w.now >= since && IsRun(cfg, w, steps)
    ensures var end := Run(cfg, w, steps); sig in end.claims && end.claims[sig] >= since + CLAIM_TTL
    decreases |steps|
  {
    if steps != [] {
      KeyIsKept(cfg, Next(cfg, w, steps[0]), sig, since, steps[1..]);
    }
  }

  /** The step sets or renews the key of `sig` in the shared store. */
  predicate SetsKey(cfg: Config, w: World, s: Step, sig: Signal)
    requires Enabled(cfg, w, s)
  {
    && cfg.shared
    && (|| (s.Claim? && (s.answer.Won? || s.answer == Unreachable(true)) && w.engines[s.e].phase.sig == sig)
        || (s.Mark? && s.applied && w.engines[s.e].phase.sig == sig))
  }

  /** Claimed or marked, a candle is held for seven days from that moment through every run, crashes included. */
  lemma KeyLivesSevenDays(cfg: Config, w: World, s: Step, sig: Signal, steps: seq<Step>)
    requires Enabled(cfg, w, s) && SetsKey(cfg, w, s, sig) && IsRun(cfg, Next(cfg, w, s), steps)
    ensures var end := Run(cfg, Next(cfg, w, s), steps);
      end.now < w.now + 7 * 24 * 60 * 60 ==> Held(end, sig)
  {
    KeyIsKept(cfg, Next(cfg, w, s), sig, w.now, steps);
  }

  // --------------------------------------------------------- pieces of runs

  lemma {:induction false} RunConcat(cfg: Config, w: World, a: seq<Step>, b: seq<Step>)
    requires IsRun(cfg, w, a) && IsRun(cfg, Run(cfg, w, a), b)
    ensures IsRun(cfg, w, a + b) && Run(cfg, w, a + b) == Run(cfg, Run(cfg, w, a), b)
    decreases |a|
  {
    if a == [] {
      assert a + b == b;
    } else {
      assert (a + b)[0] == a[0] && (a + b)[1..] == a[1..] + b;
      RunConcat(cfg, Next(cfg, w, a[0]), a[1..], b);
    }
  }

  lemma RunOne(cfg: Config, w: World, s: Step)
    requires Enabled(cfg, w, s)
    ensures IsRun(cfg, w, [s]) && Run(cfg, w, [s]) == Next(cfg, w, s)
  {
    assert [s][1..] == [];
  }

  /** Two steps: an idle engine begins a signal and clears the guards on an exact report. */
  function ClearSteps(w: World, e: EngineId, sig: Signal, d: Direction, checkedAt: Instant): seq<Step> {
    [Begin(e, sig, d, checkedAt), Poll(e, Report(w.open, false))]
  }

  /** Two steps: the cleared engine wins the claim and its request leaves. */
  function FireSteps(e: EngineId, filled: bool): seq<Step> {
    [Claim(e, Won), Send(e, true, filled)]
  }

  lemma ClearRun(cfg: Config, w: World, e: EngineId, sig: Signal, d: Direction, checkedAt: Instant)
    requires Enabled(cfg, w, Begin(e, sig, d, checkedAt)) && sig !in w.engines[e].attempted
    requires PassesGuards(cfg, w.open, false, d) && forall p <- w.open :: p.tag != Some(sig)
    ensures var steps := ClearSteps(w, e, sig, d, checkedAt);
      IsRun(cfg, w, steps) && Run(cfg, w, steps) == Put(w, e, Engine(w.engines[e].attempted, Cleared(sig, d, checkedAt)))
  {
    var first, second := Begin(e, sig, d, checkedAt), Poll(e, Report(w.open, false));
    RunOne(cfg, w, first);
    var w1 := Next(cfg, w, first);
    RunOne(cfg, w1, second);
    RunConcat(cfg, w, [first], [second]);
    assert ClearSteps(w, e, sig, d, checkedAt) == [first] + [second];
    assert Next(cfg, w1, second) == Put(w, e, Engine(w.engines[e].attempted, Cleared(sig, d, checkedAt)));
  }

  /** The world after a cleared engine's request has left. */
  function Fired(cfg: Config, w: World, e: EngineId, filled: bool): World
    requires e in w.engines && w.engines[e].phase.Cleared?
  {
    var Cleared(sig, d, _) := w.engines[e].phase;
    w.(claims := if cfg.shared then w.claims[sig := w.now + CLAIM_TTL] else w.claims,
       engines := w.engines[e := Engine(w.engines[e].attempted + {sig}, Replied(sig))],
       sent := w.sent + [sig],
       open := if filled then w.open + [Position(Some(sig), Some(d), true)] else w.open)
  }

  lemma FireRun(cfg: Config, w: World, e: EngineId, filled: bool)
    requires Enabled(cfg, w, Claim(e, Won))
    ensures var steps := FireSteps(e, filled); IsRun(cfg, w, steps) && Run(cfg, w, steps) == Fired(cfg, w, e, filled)
  {
    var first, second := Claim(e, Won), Send(e, true, filled);
    RunOne(cfg, w, first);
    var w1 := Next(cfg, w, first);
    RunOne(cfg, w1, second);
    RunConcat(cfg, w, [first], [second]);
    assert FireSteps(e, filled) == [first] + [second];
    assert Next(cfg, w1, second).engines == Fired(cfg, w, e, filled).engines;
  }

  /** Four steps: an idle engine clears the guards, claims and sends; the reply is lost. */
  function OrderSteps(w: World, e: EngineId, sig: Signal, checkedAt: Instant): seq<Step> {
    ClearSteps(w, e, sig, Buy, checkedAt) + FireSteps(e, false)
  }

  lemma OrderRun(cfg: Config, w: World, e: EngineId, sig: Signal, checkedAt: Instant)
    requires Enabled(cfg, w, Begin(e, sig, Buy, checkedAt)) && sig !in w.engines[e].attempted
    requires w.open == [] && cfg.maxOpen >= 1 && checkedAt == w.now && (cfg.shared ==> !Held(w, sig))
    ensures var steps := OrderSteps(w, e, sig, checkedAt);
      var cleared := Put(w, e, Engine(w.engines[e].attempted, Cleared(sig, Buy, checkedAt)));
      IsRun(cfg, w, steps) && Run(cfg, w, steps) == Fired(cfg, cleared, e, false)
  {
    ClearRun(cfg, w, e, sig, Buy, checkedAt);
    FireRun(cfg, Put(w, e, Engine(w.engines[e].attempted, Cleared(sig, Buy, checkedAt))), e, false);
    RunConcat(cfg, w, ClearSteps(w, e, sig, Buy, checkedAt), FireSteps(e, false));
  }

  // ------------------------------------------------ the bound is exact

  function IdleEngines(n: nat, now: Instant): (w: World)
    ensures Initial(w) && |w.engines| == n
  {
    var engines := map e | e in EngineIds(n) :: Engine({}, Idle);
    assert engines.Keys == EngineIds(n);
    World(now, map[], engines, [], [])
  }

  const CANDLE := Signal("5m", 0)

  /**
   * Engine 0 has claimed a candle stamped as far ahead as allowed and holds its
   * request back; engine 1 has just cleared the same candle on an empty book.
   */
  function HeldBack(cfg: Config, n: nat): World {
    var start := IdleEngines(n, 0 - cfg.maxLead);
    start.(now := STALE_AFTER, claims := map[CANDLE := CLAIM_TTL - cfg.maxLead],
           engines := start.engines[0 := Engine({CANDLE}, Claimed(CANDLE, Buy))]
                                   [1 := Engine({}, Cleared(CANDLE, Buy, STALE_AFTER))])
  }

  /** Engine 0 has just claimed its candle. */
  function ClaimedEarly(cfg: Config, n: nat): World {
    var start := IdleEngines(n, 0 - cfg.maxLead);
    start.(claims := map[CANDLE := CLAIM_TTL - cfg.maxLead],
           engines := start.engines[0 := Engine({CANDLE}, Claimed(CANDLE, Buy))])
  }

  lemma ClaimEarly(cfg: Config, n: nat) returns (steps: seq<Step>)
    requires cfg.shared && cfg.maxOpen >= 1 && n >= 2
    ensures var w := IdleEngines(n, 0 - cfg.maxLead);
      IsRun(cfg, w, steps) && CompleteReports(cfg, w, steps) && Run(cfg, w, steps) == ClaimedEarly(cfg, n)
  {
    var w := IdleEngines(n, 0 - cfg.maxLead);
    var clear := ClearSteps(w, 0, CANDLE, Buy, w.now);
    ClearRun(cfg, w, 0, CANDLE, Buy, w.now);
    ClearIsComplete(cfg, w, 0, CANDLE, Buy, w.now);
    steps := Then(cfg, w, clear, Claim(0, Won));
    assert Run(cfg, w, steps).engines == ClaimedEarly(cfg, n).engines;
  }

  lemma HoldBack(cfg: Config, n: nat) returns (steps: seq<Step>)
    requires cfg.shared && cfg.maxOpen >= 1 && n >= 2
    ensures var w := IdleEngines(n, 0 - cfg.maxLead);
      IsRun(cfg, w, steps) && CompleteReports(cfg, w, steps) && Run(cfg, w, steps) == HeldBack(cfg, n)
  {
    var w := IdleEngines(n, 0 - cfg.maxLead);
    var early := ClaimEarly(cfg, n);
    var waited := Then(cfg, w, early, Wait(STALE_AFTER + cfg.maxLead));
    var w1 := ClaimedEarly(cfg, n).(now := STALE_AFTER);
    var clear := ClearSteps(w1, 1, CANDLE, Buy, STALE_AFTER);
    ClearLate(cfg, n, w1);
    RunConcat(cfg, w, waited, clear);
    CompleteConcat(cfg, w, waited, clear);
    steps := waited + clear;
  }

  lemma ClearLate(cfg: Config, n: nat, w: World)
    requires cfg.maxOpen >= 1 && n >= 2 && w == ClaimedEarly(cfg, n).(now := STALE_AFTER)
    ensures var clear := ClearSteps(w, 1, CANDLE, Buy, STALE_AFTER);
      IsRun(cfg, w, clear) && CompleteReports(cfg, w, clear) && Run(cfg, w, clear) == HeldBack(cfg, n)
  {
    ClearRun(cfg, w, 1, CANDLE, Buy, STALE_AFTER);
    ClearIsComplete(cfg, w, 1, CANDLE, Buy, STALE_AFTER);
  }

  /** A run and one more step that is not a poll. */
  lemma Then(cfg: Config, w: World, before: seq<Step>, s: Step) returns (steps: seq<Step>)
    requires IsRun(cfg, w, before) && CompleteReports(cfg, w, before) && Enabled(cfg, Run(cfg, w, before), s) && !s.Poll?
    ensures IsRun(cfg, w, steps) && CompleteReports(cfg, w, steps)
    ensures Run(cfg, w, steps) == Next(cfg, Run(cfg, w, before), s)
  {
    RunOne(cfg, Run(cfg, w, before), s);
    RunConcat(cfg, w, before, [s]);
    CompleteConcat(cfg, w, before, [s]);
    steps := before + [s];
  }

  /** Two engines, one holding its request back and one dawdling until the first key dies, trade one candle twice. */
  lemma SlowClaimRepeats(cfg: Config, n: nat) returns (steps: seq<Step>)
    requires cfg.shared && cfg.maxOpen >= 1 && cfg.maxDelay + cfg.maxLead >= CLAIM_TTL - STALE_AFTER && n >= 2
    ensures var w := IdleEngines(n, 0 - cfg.maxLead);
      && IsRun(cfg, w, steps) && CompleteReports(cfg, w, steps)
      && Run(cfg, w, steps).sent == [CANDLE, CANDLE]
      && Run(cfg, w, steps).open == [Position(Some(CANDLE), Some(Buy), true), Position(Some(CANDLE), Some(Buy), true)]
  {
    var w := IdleEngines(n, 0 - cfg.maxLead);
    var rest: nat := if CLAIM_TTL - STALE_AFTER <= cfg.maxLead then 0 else CLAIM_TTL - STALE_AFTER - cfg.maxLead;
    var held := HoldBack(cfg, n);
    var sent := Then(cfg, w, held, Send(0, true, true));
    var waited := Then(cfg, w, sent, Wait(rest));
    FireLate(cfg, n, Run(cfg, w, waited), rest);
    RunConcat(cfg, w, waited, FireSteps(1, true));
    CompleteConcat(cfg, w, waited, FireSteps(1, true));
    steps := waited + FireSteps(1, true);
  }

  lemma FireLate(cfg: Config, n: nat, w: World, rest: nat)
    requires cfg.shared && n >= 2 && rest <= cfg.maxDelay && STALE_AFTER + rest >= CLAIM_TTL - cfg.maxLead
    requires var held := HeldBack(cfg, n);
      w == World(STALE_AFTER + rest, held.claims, held.engines[0 := Engine({CANDLE}, Replied(CANDLE))],
                 [Position(Some(CANDLE), Some(Buy), true)], [CANDLE])
    ensures IsRun(cfg, w, FireSteps(1, true)) && CompleteReports(cfg, w, FireSteps(1, true))
    ensures Run(cfg, w, FireSteps(1, true)).sent == [CANDLE, CANDLE]
    ensures Run(cfg, w, FireSteps(1, true)).open
         == [Position(Some(CANDLE), Some(Buy), true), Position(Some(CANDLE), Some(Buy), true)]
  {
    FireRunIsComplete(cfg, w, 1);
  }

  /**
   * At most one request per signal, over all runs, if and only if delay and lead
   * together stay below the margin of seven days minus two hours.
   */
  lemma AtMostOneRequestIff(cfg: Config)
    requires cfg.shared && cfg.maxOpen >= 1
    ensures (forall w, steps | Initial(w) && IsRun(cfg, w, steps) :: Distinct(Run(cfg, w, steps).sent))
       <==> cfg.maxDelay + cfg.maxLead < CLAIM_TTL - STALE_AFTER
  {
    if cfg.maxDelay + cfg.maxLead < CLAIM_TTL - STALE_AFTER {
      forall w, steps | Initial(w) && IsRun(cfg, w, steps) ensures Distinct(Run(cfg, w, steps).sent) {
        InitialIsClaimSafe(w, cfg.maxLead);
        AtMostOneRequest(cfg, w, steps);
      }
    } else {
      var steps := SlowClaimRepeats(cfg, 2);
      var sent := Run(cfg, IdleEngines(2, 0 - cfg.maxLead), steps).sent;
      assert sent[0] == sent[1];
    }
  }

  // ------------------------------------------------- without a shared store

  /** Engine `e` alone: everything it sent is in its attempted set. */
  predicate LocalSafe(w: World, e: EngineId) {
    && w.engines.Keys == {e}
    && Distinct(w.sent)
    && (forall sig <- w.sent :: sig in w.engines[e].attempted)
    && (match w.engines[e].phase
        case Entered(sig, _, _) => sig !in w.engines[e].attempted
        case Cleared(sig, _, _) => sig !in w.engines[e].attempted
        case Claimed(sig, _) => sig in w.engines[e].attempted && sig !in w.sent
        case _ => true)
  }

  /** A single engine repeats no request as long as it does not crash, store or no store. */
  lemma {:induction false} OneEngineUntilCrash(cfg: Config, w: World, e: EngineId, steps: seq<Step>)
    requires LocalSafe(w, e) && IsRun(cfg, w, steps) && NoCrash(steps)
    ensures LocalSafe(Run(cfg, w, steps), e)
    decreases |steps|
  {
    if steps != [] {
      assert steps[0] in steps;
      OneEngineUntilCrash(cfg, Next(cfg, w, steps[0]), e, steps[1..]);
    }
  }

  /** Without a store, one crash is enough for a second request, whatever the number of engines. */
  lemma CrashWithoutStoreRepeats(cfg: Config, n: nat) returns (steps: seq<Step>)
    requires !cfg.shared && cfg.maxOpen >= 1 && n >= 1
    ensures var w := IdleEngines(n, 0); IsRun(cfg, w, steps) && !Distinct(Run(cfg, w, steps).sent)
  {
    var sig, w := Signal("5m", 0), IdleEngines(n, 0);
    var order := OrderSteps(w, 0, sig, 0);
    OrderRun(cfg, w, 0, sig, 0);
    var w1 := Run(cfg, w, order);
    RunOne(cfg, w1, Crash(0));
    RunConcat(cfg, w, order, [Crash(0)]);
    var w2 := Put(w1, 0, Engine({}, Idle));
    OrderRun(cfg, w2, 0, sig, 0);
    assert OrderSteps(w2, 0, sig, 0) == order;
    steps := order + [Crash(0)] + order;
    RunConcat(cfg, w, order + [Crash(0)], order);
    var end := Run(cfg, w, steps);
    assert end.sent[0] == end.sent[1];
  }

  /** Without a store two engines repeat a request with no crash at all: neither sees the other's attempt. */
  lemma TwoEnginesWithoutStoreRepeat(cfg: Config, n: nat) returns (steps: seq<Step>)
    requires !cfg.shared && cfg.maxOpen >= 1 && n >= 2
    ensures var w := IdleEngines(n, 0); IsRun(cfg, w, steps) && !Distinct(Run(cfg, w, steps).sent)
    ensures NoCrash(steps)
  {
    var sig := Signal("5m", 0);
    steps := TwoOrders(n, sig, Buy, sig, Buy);
    TwoOrdersRun(cfg, n, sig, Buy, sig, Buy);
    var end := Run(cfg, IdleEngines(n, 0), steps);
    assert end.sent[0] == end.sent[1];
  }

  predicate NoCrash(steps: seq<Step>) {
    forall s <- steps :: !s.Crash?
  }

  /** Without a store, N engines repeat no request over all runs if and only if N is one and crashes are excluded. */
  lemma WithoutStoreIff(cfg: Config, n: nat, crashes: bool)
    requires !cfg.shared && cfg.maxOpen >= 1 && n >= 1
    ensures (forall w, steps | Initial(w) && |w.engines| == n && IsRun(cfg, w, steps) && (crashes || NoCrash(steps)) ::
               Distinct(Run(cfg, w, steps).sent))
       <==> n == 1 && !crashes
  {
    if n == 1 && !crashes {
      forall w, steps | Initial(w) && |w.engines| == n && IsRun(cfg, w, steps) && NoCrash(steps)
        ensures Distinct(Run(cfg, w, steps).sent) {
        var e := TheOne(w.engines.Keys);
        OneEngineUntilCrash(cfg, w, e, steps);
      }
    } else if crashes {
      var steps := CrashWithoutStoreRepeats(cfg, n);
      assert !Distinct(Run(cfg, IdleEngines(n, 0), steps).sent);
    } else {
      var steps := TwoEnginesWithoutStoreRepeat(cfg, n);
      assert !Distinct(Run(cfg, IdleEngines(n, 0), steps).sent);
    }
  }

  // -------------------------------------------------- two crossing orders

  /** Both engines clear their guards on the empty book before either places its order. */
  function TwoOrders(n: nat, a: Signal, da: Direction, b: Signal, db: Direction): seq<Step> {
    var w := IdleEngines(n, 0);
    (ClearSteps(w, 0, a, da, 0) + ClearSteps(w, 1, b, db, 0)) + (FireSteps(0, true) + FireSteps(1, true))
  }

  lemma TwoOrdersRun(cfg: Config, n: nat, a: Signal, da: Direction, b: Signal, db: Direction)
    requires a.candleTime == b.candleTime == 0 && cfg.maxOpen >= 1 && (cfg.shared ==> a != b) && n >= 2
    ensures var w, steps := IdleEngines(n, 0), TwoOrders(n, a, da, b, db);
      && IsRun(cfg, w, steps) && CompleteReports(cfg, w, steps)
      && Run(cfg, w, steps).sent == [a, b]
      && Run(cfg, w, steps).open == [Position(Some(a), Some(da), true), Position(Some(b), Some(db), true)]
  {
    var w := IdleEngines(n, 0);
    var clear, fire := ClearSteps(w, 0, a, da, 0) + ClearSteps(w, 1, b, db, 0), FireSteps(0, true) + FireSteps(1, true);
    BothClear(cfg, n, a, da, b, db);
    BothFire(cfg, n, a, da, b, db);
    RunConcat(cfg, w, clear, fire);
    CompleteConcat(cfg, w, clear, fire);
    assert TwoOrders(n, a, da, b, db) == clear + fire;
  }

  function TwoCleared(n: nat, a: Signal, da: Direction, b: Signal, db: Direction): World {
    Put(Put(IdleEngines(n, 0), 0, Engine({}, Cleared(a, da, 0))), 1, Engine({}, Cleared(b, db, 0)))
  }

  lemma BothClear(cfg: Config, n: nat, a: Signal, da: Direction, b: Signal, db: Direction)
    requires a.candleTime == b.candleTime == 0 && cfg.maxOpen >= 1 && n >= 2
    ensures var w := IdleEngines(n, 0);
      var steps := ClearSteps(w, 0, a, da, 0) + ClearSteps(w, 1, b, db, 0);
      IsRun(cfg, w, steps) && CompleteReports(cfg, w, steps) && Run(cfg, w, steps) == TwoCleared(n, a, da, b, db)
  {
    var w := IdleEngines(n, 0);
    var w1 := Put(w, 0, Engine({}, Cleared(a, da, 0)));
    ClearRun(cfg, w, 0, a, da, 0);
    ClearIsComplete(cfg, w, 0, a, da, 0);
    ClearRun(cfg, w1, 1, b, db, 0);
    ClearIsComplete(cfg, w1, 1, b, db, 0);
    RunConcat(cfg, w, ClearSteps(w, 0, a, da, 0), ClearSteps(w1, 1, b, db, 0));
    CompleteConcat(cfg, w, ClearSteps(w, 0, a, da, 0), ClearSteps(w1, 1, b, db, 0));
  }

  lemma BothFire(cfg: Config, n: nat, a: Signal, da: Direction, b: Signal, db: Direction)
    requires (cfg.shared ==> a != b) && n >= 2
    ensures var w, steps := TwoCleared(n, a, da, b, db), FireSteps(0, true) + FireSteps(1, true);
      && IsRun(cfg, w, steps) && CompleteReports(cfg, w, steps)
      && Run(cfg, w, steps).sent == [a, b]
      && Run(cfg, w, steps).open == [Position(Some(a), Some(da), true), Position(Some(b), Some(db), true)]
  {
    SecondMayClaim(cfg, n, a, da, b, db);
    FireTwice(cfg, TwoCleared(n, a, da, b, db), 0, 1);
  }

  lemma FireTwice(cfg: Config, w: World, e: EngineId, f: EngineId)
    requires Enabled(cfg, w, Claim(e, Won)) && Enabled(cfg, Fired(cfg, w, e, true), Claim(f, Won))
    ensures var steps := FireSteps(e, true) + FireSteps(f, true);
      && IsRun(cfg, w, steps) && CompleteReports(cfg, w, steps)
      && Run(cfg, w, steps) == Fired(cfg, Fired(cfg, w, e, true), f, true)
  {
    FireRunIsComplete(cfg, w, e);
    FireRunIsComplete(cfg, Fired(cfg, w, e, true), f);
    RunConcat(cfg, w, FireSteps(e, true), FireSteps(f, true));
    CompleteConcat(cfg, w, FireSteps(e, true), FireSteps(f, true));
  }

  lemma SecondMayClaim(cfg: Config, n: nat, a: Signal, da: Direction, b: Signal, db: Direction)
    requires (cfg.shared ==> a != b) && n >= 2
    ensures var w := TwoCleared(n, a, da, b, db);
      && Enabled(cfg, w, Claim(0, Won)) && Enabled(cfg, Fired(cfg, w, 0, true), Claim(1, Won))
      && var end := Fired(cfg, Fired(cfg, w, 0, true), 1, true);
      && end.sent == [a, b]
      && end.open == [Position(Some(a), Some(da), true), Position(Some(b), Some(db), true)]
  {
  }

  lemma ClearIsComplete(cfg: Config, w: World, e: EngineId, sig: Signal, d: Direction, checkedAt: Instant)
    requires IsRun(cfg, w, ClearSteps(w, e, sig, d, checkedAt))
    ensures CompleteReports(cfg, w, ClearSteps(w, e, sig, d, checkedAt))
  {
    var steps := ClearSteps(w, e, sig, d, checkedAt);
    assert steps[1..] == [steps[1]] && steps[1..][1..] == [];
  }

  // ------------------------------------------------------ bounded capacity

  /** Every position report of the run shows exactly what is open. */
  ghost predicate CompleteReports(cfg: Config, w: World, steps: seq<Step>)
    requires IsRun(cfg, w, steps)
    decreases |steps|
  {
    steps != [] ==>
      && (steps[0].Poll? && steps[0].report.Report? ==> multiset(steps[0].report.rows) == multiset(w.open))
      && CompleteReports(cfg, Next(cfg, w, steps[0]), steps[1..])
  }

  /** Engines between a cleared poll and their request. */
  function Committed(w: World): set<EngineId> {
    set e | e in w.engines && (w.engines[e].phase.Cleared? || w.engines[e].phase.Claimed?)
  }

  predicate Bounded(cfg: Config, w: World) {
    w.engines.Keys != {} && |w.open| + |Committed(w)| <= cfg.maxOpen + |w.engines| - 1
  }

  lemma CommittedPut(w: World, e: EngineId, x: Engine)
    requires e in w.engines
    ensures Put(w, e, x).engines.Keys == w.engines.Keys
    ensures Committed(Put(w, e, x))
         == (if x.phase.Cleared? || x.phase.Claimed? then Committed(w) + {e} else Committed(w) - {e})
  {
  }

  lemma PollKeepsBound(cfg: Config, w: World, e: EngineId, report: Report)
    requires Enabled(cfg, w, Poll(e, report)) && Bounded(cfg, w)
    requires report.Report? ==> multiset(report.rows) == multiset(w.open)
    ensures Bounded(cfg, Next(cfg, w, Poll(e, report)))
  {
    var x := AfterPoll(cfg, w.engines[e], report);
    CommittedPut(w, e, x);
    if x.phase.Cleared? {
      assert |report.rows| == |multiset(report.rows)| == |w.open|;
      SubsetSize(Committed(w) + {e}, w.engines.Keys);
    }
  }

  predicate InFlight(x: Engine) {
    x.phase.Cleared? || x.phase.Claimed?
  }

  /** One engine's move keeps the bound unless it adds more than it gives up. */
  lemma MoveKeepsBound(cfg: Config, w: World, w': World, e: EngineId)
    requires Bounded(cfg, w) && e in w.engines && e in w'.engines && w'.engines == w.engines[e := w'.engines[e]]
    requires |w'.open| + (if InFlight(w'.engines[e]) then 1 else 0) <= |w.open| + (if InFlight(w.engines[e]) then 1 else 0)
    ensures Bounded(cfg, w') && w'.engines.Keys == w.engines.Keys
  {
    CommittedPut(w, e, w'.engines[e]);
    assert Committed(w') == Committed(Put(w, e, w'.engines[e]));
    assert e in Committed(w) <==> InFlight(w.engines[e]);
  }

  lemma StepKeepsBound(cfg: Config, w: World, s: Step)
    requires Enabled(cfg, w, s) && Bounded(cfg, w)
    requires s.Poll? && s.report.Report? ==> multiset(s.report.rows) == multiset(w.open)
    ensures Bounded(cfg, Next(cfg, w, s)) && Next(cfg, w, s).engines.Keys == w.engines.Keys
  {
    match s {
      case Poll(e, report) =>
        PollKeepsBound(cfg, w, e, report);
      case Wait(_) => assert Committed(Next(cfg, w, s)) == Committed(w);
      case BrokerClose(_) => assert Committed(Next(cfg, w, s)) == Committed(w);
      case _ => MoveKeepsBound(cfg, w, Next(cfg, w, s), s.e);
    }
  }

  /**
   * N engines that each poll and then place never open more than the
   * configured maximum plus N - 1 positions; one engine never exceeds it.
   */
  lemma {:induction false} CapacityIsBounded(cfg: Config, w: World, steps: seq<Step>)
    requires Bounded(cfg, w) && IsRun(cfg, w, steps) && CompleteReports(cfg, w, steps)
    ensures Bounded(cfg, Run(cfg, w, steps))
    ensures |Run(cfg, w, steps).open| <= cfg.maxOpen + |w.engines| - 1
    decreases |steps|
  {
    if steps != [] {
      StepKeepsBound(cfg, w, steps[0]);
      CapacityIsBounded(cfg, Next(cfg, w, steps[0]), steps[1..]);
    }
  }

  /** All open positions are known to face the same way. */
  predicate FacesOneWay(open: seq<Position>) {
    forall p, q | p in open && q in open :: p.direction.Some? && p.direction == q.direction
  }

  /** One engine, no hedging: whatever is open, or about to be, faces one way. */
  predicate OneSided(w: World, e: EngineId) {
    && w.engines.Keys == {e}
    && FacesOneWay(w.open)
    && ((w.engines[e].phase.Cleared? || w.engines[e].phase.Claimed?) ==>
          forall p <- w.open :: p.direction == Some(w.engines[e].phase.direction))
  }

  lemma StepKeepsOneSided(cfg: Config, w: World, e: EngineId, s: Step)
    requires !cfg.hedging && OneSided(w, e) && Enabled(cfg, w, s)
    requires s.Poll? && s.report.Report? ==> multiset(s.report.rows) == multiset(w.open)
    ensures OneSided(Next(cfg, w, s), e)
  {
    if s.Poll? && s.report.Report? {
      forall p <- w.open ensures p in s.report.rows {
        assert p in multiset(w.open);
      }
    }
    if s.BrokerClose? {
      forall p <- Next(cfg, w, s).open ensures p in w.open {
      }
    }
  }

  lemma {:induction false} OneDirection(cfg: Config, w: World, e: EngineId, steps: seq<Step>)
    requires !cfg.hedging && OneSided(w, e) && IsRun(cfg, w, steps) && CompleteReports(cfg, w, steps)
    ensures OneSided(Run(cfg, w, steps), e)
    decreases |steps|
  {
    if steps != [] {
      StepKeepsOneSided(cfg, w, e, steps[0]);
      OneDirection(cfg, Next(cfg, w, steps[0]), e, steps[1..]);
    }
  }

  /** Two engines with exact reports and no hedging may still end up facing both ways. */
  lemma TwoEnginesFaceBothWays(cfg: Config, n: nat) returns (steps: seq<Step>)
    requires !cfg.hedging && cfg.maxOpen >= 1 && n >= 2
    ensures var w := IdleEngines(n, 0);
      IsRun(cfg, w, steps) && CompleteReports(cfg, w, steps) && !FacesOneWay(Run(cfg, w, steps).open)
  {
    var a, b := Signal("5m", 0), Signal("10m", 0);
    steps := TwoOrders(n, a, Buy, b, Sell);
    assert |"5m"| != |"10m"|;
    TwoOrdersRun(cfg, n, a, Buy, b, Sell);
    var open := Run(cfg, IdleEngines(n, 0), steps).open;
    assert open[0] in open && open[1] in open;
  }

  /** Without hedging, N engines keep all positions on one side over all runs if and only if N is one. */
  lemma OneDirectionIff(cfg: Config, n: nat)
    requires !cfg.hedging && cfg.maxOpen >= 1 && n >= 1
    ensures (forall w, steps | Initial(w) && |w.engines| == n && FacesOneWay(w.open)
                               && IsRun(cfg, w, steps) && CompleteReports(cfg, w, steps) ::
               FacesOneWay(Run(cfg, w, steps).open))
       <==> n == 1
  {
    if n == 1 {
      forall w, steps | Initial(w) && |w.engines| == n && FacesOneWay(w.open)
                        && IsRun(cfg, w, steps) && CompleteReports(cfg, w, steps)
        ensures FacesOneWay(Run(cfg, w, steps).open) {
        var e := TheOne(w.engines.Keys);
        OneDirection(cfg, w, e, steps);
      }
    } else {
      var steps := TwoEnginesFaceBothWays(cfg, n);
      assert !FacesOneWay(Run(cfg, IdleEngines(n, 0), steps).open);
    }
  }

  // ------------------------------------------- one position per candle

  /** No two open positions carry the same candle. */
  predicate UniqueTags(open: seq<Position>) {
    forall i, j :: 0 <= i < j < |open| && open[i].tag.Some? ==> open[i].tag != open[j].tag
  }

  predicate Untagged(open: seq<Position>, sig: Signal) {
    forall i :: 0 <= i < |open| ==> open[i].tag != Some(sig)
  }

  /** What an engine in flight is about to place is not open yet, unless it is already `spent`. */
  predicate TagSafe(w: World, spent: set<Signal>) {
    && UniqueTags(w.open)
    && forall e <- w.engines :: InFlight(w.engines[e]) ==>
         Untagged(w.open, w.engines[e].phase.sig) || w.engines[e].phase.sig in spent
  }

  /** A poll of a complete report clears only a candle no open position carries. */
  lemma ClearedIsUntagged(cfg: Config, x: Engine, report: Report, open: seq<Position>)
    requires x.phase.Entered? && (report.Report? ==> multiset(report.rows) == multiset(open))
    ensures AfterPoll(cfg, x, report).phase.Cleared? ==> Untagged(open, x.phase.sig)
    ensures !AfterPoll(cfg, x, report).phase.Claimed?
  {
    if report.Report? {
      forall i | 0 <= i < |open| ensures open[i] in report.rows {
        assert open[i] in multiset(open);
      }
    }
  }

  lemma TagsAppend(open: seq<Position>, p: Position, sig: Signal)
    requires UniqueTags(open) && p.tag == Some(sig) && Untagged(open, sig)
    ensures UniqueTags(open + [p])
    ensures forall other :: other != sig && Untagged(open, other) ==> Untagged(open + [p], other)
  {
  }

  lemma TagsRemove(open: seq<Position>, index: nat)
    requires index < |open| && UniqueTags(open)
    ensures UniqueTags(open[..index] + open[index + 1..])
    ensures forall sig :: Untagged(open, sig) ==> Untagged(open[..index] + open[index + 1..], sig)
  {
  }

  lemma PutKeepsTags(w: World, e: EngineId, x: Engine, spent: set<Signal>)
    requires TagSafe(w, spent) && e in w.engines
    requires InFlight(x) ==> Untagged(w.open, x.phase.sig) || x.phase.sig in spent
    ensures TagSafe(Put(w, e, x), spent)
  {
  }

  /** Every step keeps positions unique if a request in flight is only sent while its candle is not spent. */
  lemma StepKeepsTags(cfg: Config, w: World, s: Step, spent: set<Signal>, spent': set<Signal>)
    requires TagSafe(w, spent) && Enabled(cfg, w, s) && spent <= spent'
    requires s.Poll? && s.report.Report? ==> multiset(s.report.rows) == multiset(w.open)
    requires s.Send? ==>
      && w.engines[s.e].phase.sig !in spent
      && (w.engines.Keys == {s.e} || (s.leaves ==> w.engines[s.e].phase.sig in spent'))
    ensures TagSafe(Next(cfg, w, s), spent')
  {
    match s {
      case Poll(e, report) =>
        ClearedIsUntagged(cfg, w.engines[e], report, w.open);
        PutKeepsTags(w, e, AfterPoll(cfg, w.engines[e], report), spent);
      case Send(_, _, _) => SendKeepsTags(cfg, w, s, spent, spent');
      case BrokerClose(index) => TagsRemove(w.open, index);
      case Wait(_) =>
      case _ => PutKeepsTags(w, s.e, Next(cfg, w, s).engines[s.e], spent);
    }
  }

  lemma SendKeepsTags(cfg: Config, w: World, s: Step, spent: set<Signal>, spent': set<Signal>)
    requires TagSafe(w, spent) && Enabled(cfg, w, s) && s.Send? && spent <= spent'
    requires w.engines[s.e].phase.sig !in spent
    requires w.engines.Keys == {s.e} || (s.leaves ==> w.engines[s.e].phase.sig in spent')
    ensures TagSafe(Next(cfg, w, s), spent')
  {
    var Claimed(sig, d) := w.engines[s.e].phase;
    if s.filled {
      TagsAppend(w.open, Position(Some(sig), Some(d), true), sig);
    }
  }

  /** One engine with complete reports never opens a candle twice, whatever crashes and whatever the store does. */
  lemma {:induction false} OneEngineTradesCandlesOnce(cfg: Config, w: World, e: EngineId, steps: seq<Step>)
    requires w.engines.Keys == {e} && TagSafe(w, {}) && IsRun(cfg, w, steps) && CompleteReports(cfg, w, steps)
    ensures UniqueTags(Run(cfg, w, steps).open)
    decreases |steps|
  {
    if steps != [] {
      StepKeepsTags(cfg, w, steps[0], {}, {});
      OneEngineTradesCandlesOnce(cfg, Next(cfg, w, steps[0]), e, steps[1..]);
    }
  }

  function Sent(w: World): set<Signal> {
    set sig <- w.sent
  }

  /** Neither do many engines that share a store and keep the margin. */
  lemma {:induction false} SharedStoreTradesCandlesOnce(cfg: Config, w: World, steps: seq<Step>)
    requires cfg.shared && cfg.maxDelay + cfg.maxLead < CLAIM_TTL - STALE_AFTER
    requires ClaimSafe(w, cfg.maxLead) && TagSafe(w, Sent(w)) && IsRun(cfg, w, steps) && CompleteReports(cfg, w, steps)
    ensures UniqueTags(Run(cfg, w, steps).open)
    decreases |steps|
  {
    if steps != [] {
      var s, w1 := steps[0], Next(cfg, w, steps[0]);
      StepKeepsClaimSafe(cfg, w, s);
      if s.Send? {
        assert EngineSafe(w.now, w.claims, w.sent, w.engines[s.e], cfg.maxLead);
      }
      StepKeepsTags(cfg, w, s, Sent(w), Sent(w1));
      SharedStoreTradesCandlesOnce(cfg, w1, steps[1..]);
    }
  }

  /**
   * With complete reports no two open positions ever carry the same candle, over all
   * runs of N engines, if and only if N is one, or there is a store and delay and lead
   * stay below the margin.
   */
  lemma OnePositionPerCandleIff(cfg: Config, n: nat)
    requires cfg.maxOpen >= 1 && n >= 1
    ensures (forall w, steps | Initial(w) && |w.engines| == n && UniqueTags(w.open)
                               && IsRun(cfg, w, steps) && CompleteReports(cfg, w, steps) ::
               UniqueTags(Run(cfg, w, steps).open))
       <==> n == 1 || (cfg.shared && cfg.maxDelay + cfg.maxLead < CLAIM_TTL - STALE_AFTER)
  {
    if n == 1 || (cfg.shared && cfg.maxDelay + cfg.maxLead < CLAIM_TTL - STALE_AFTER) {
      forall w, steps | Initial(w) && |w.engines| == n && UniqueTags(w.open)
                        && IsRun(cfg, w, steps) && CompleteReports(cfg, w, steps)
        ensures UniqueTags(Run(cfg, w, steps).open) {
        if n == 1 {
          var e := TheOne(w.engines.Keys);
          OneEngineTradesCandlesOnce(cfg, w, e, steps);
        } else {
          InitialIsClaimSafe(w, cfg.maxLead);
          SharedStoreTradesCandlesOnce(cfg, w, steps);
        }
      }
    } else if cfg.shared {
      var steps := SlowClaimRepeats(cfg, n);
      var open := Run(cfg, IdleEngines(n, 0 - cfg.maxLead), steps).open;
      assert open[0].tag == open[1].tag;
    } else {
      TwoOrdersRun(cfg, n, CANDLE, Buy, CANDLE, Buy);
      var open := Run(cfg, IdleEngines(n, 0), TwoOrders(n, CANDLE, Buy, CANDLE, Buy)).open;
      assert open[0].tag == open[1].tag;
    }
  }

  // --------------------------------------------- a candle once shut stays shut

  /** The requests engine `e` sends during a run. */
  function SentBy(cfg: Config, w: World, steps: seq<Step>, e: EngineId): seq<Signal>
    requires IsRun(cfg, w, steps)
    decreases |steps|
  {
    if steps == [] then []
    else
      (if steps[0].Send? && steps[0].e == e then [w.engines[e].phase.sig] else [])
      + SentBy(cfg, Next(cfg, w, steps[0]), steps[1..], e)
  }

  /** Engine `x` has attempted the candle and is not at work on it. */
  predicate Shut(x: Engine, sig: Signal) {
    && sig in x.attempted
    && (x.phase.Entered? || InFlight(x) ==> x.phase.sig != sig)
  }

  /** Until it crashes an engine sends nothing for a candle it has shut. */
  lemma {:induction false} ShutCandleStaysShut(cfg: Config, w: World, e: EngineId, sig: Signal, steps: seq<Step>)
    requires e in w.engines && Shut(w.engines[e], sig) && IsRun(cfg, w, steps) && Crash(e) !in steps
    ensures Run(cfg, w, steps).engines.Keys == w.engines.Keys
    ensures sig !in SentBy(cfg, w, steps, e) && Shut(Run(cfg, w, steps).engines[e], sig)
    decreases |steps|
  {
    if steps != [] {
      assert steps[0] in steps;
      ShutCandleStaysShut(cfg, Next(cfg, w, steps[0]), e, sig, steps[1..]);
    }
  }

  /**
   * A candle counts as attempted once the broker reports its position or a claim is
   * answered, and by nothing else: after a failed report, a refusal or an unreachable store
   * the engine may try again.
   */
  lemma ShutIff(cfg: Config, w: World, s: Step, e: EngineId, sig: Signal)
    requires Enabled(cfg, w, s) && e in w.engines && sig !in w.engines[e].attempted
    ensures sig in Next(cfg, w, s).engines[e].attempted
       <==> || (&& s.Poll? && s.e == e && w.engines[e].phase.sig == sig
                && s.report.Report? && exists p <- s.report.rows :: p.tag == Some(sig))
            || (s.Claim? && s.e == e && w.engines[e].phase.sig == sig && !s.answer.Unreachable?)
  {
  }

  // ----------------------------------------------- the bound is reached

  lemma {:induction false} CompleteConcat(cfg: Config, w: World, a: seq<Step>, b: seq<Step>)
    requires IsRun(cfg, w, a) && IsRun(cfg, Run(cfg, w, a), b) && IsRun(cfg, w, a + b)
    requires CompleteReports(cfg, w, a) && CompleteReports(cfg, Run(cfg, w, a), b)
    ensures CompleteReports(cfg, w, a + b)
    decreases |a|
  {
    if a == [] {
      assert a + b == b;
    } else {
      assert (a + b)[0] == a[0] && (a + b)[1..] == a[1..] + b;
      CompleteConcat(cfg, Next(cfg, w, a[0]), a[1..], b);
    }
  }

  /** A different candle for every engine. */
  function OwnSignal(e: EngineId): (sig: Signal)
    ensures |sig.timeframe| == e && sig.candleTime == 0
  {
    Signal(seq(e, i => 'm'), 0)
  }

  function OwnPosition(e: EngineId): Position {
    Position(Some(OwnSignal(e)), Some(Buy), true)
  }

  /** `n` engines: the first `fired` have placed, the next up to `cleared` are past their guards. */
  function Stage(n: nat, base: seq<Position>, cleared: nat, fired: nat): World {
    World(0,
          map sig | sig in Signals(fired) :: CLAIM_TTL,
          map e: EngineId | 0 <= e < n ::
            if e < fired then Engine({OwnSignal(e)}, Replied(OwnSignal(e)))
            else if e < cleared then Engine({}, Cleared(OwnSignal(e), Buy, 0))
            else Engine({}, Idle),
          base + seq(fired, i requires 0 <= i => OwnPosition(i)),
          seq(fired, i requires 0 <= i => OwnSignal(i)))
  }

  function Signals(n: nat): set<Signal> {
    set e | 0 <= e < n :: OwnSignal(e)
  }

  /** Room for exactly one more when the guards are read. */
  predicate AlmostFull(cfg: Config, base: seq<Position>) {
    |base| + 1 == cfg.maxOpen && forall p <- base :: p == Position(None, Some(Buy), true)
  }

  lemma {:induction false} AllClear(cfg: Config, n: nat, base: seq<Position>, k: nat) returns (steps: seq<Step>)
    requires AlmostFull(cfg, base) && k <= n
    ensures var w := Stage(n, base, 0, 0);
      IsRun(cfg, w, steps) && CompleteReports(cfg, w, steps) && Run(cfg, w, steps) == Stage(n, base, k, 0)
  {
    steps := [];
    if k > 0 {
      var start, more := Stage(n, base, 0, 0), ClearSteps(Stage(n, base, k - 1, 0), k - 1, OwnSignal(k - 1), Buy, 0);
      var before := AllClear(cfg, n, base, k - 1);
      assert Run(cfg, start, before) == Stage(n, base, k - 1, 0);
      ClearNext(cfg, n, base, k - 1);
      RunConcat(cfg, start, before, more);
      CompleteConcat(cfg, start, before, more);
      steps := before + more;
    }
  }

  lemma ClearNext(cfg: Config, n: nat, base: seq<Position>, k: nat)
    requires AlmostFull(cfg, base) && k < n
    ensures var w := Stage(n, base, k, 0);
      var more := ClearSteps(w, k, OwnSignal(k), Buy, 0);
      IsRun(cfg, w, more) && CompleteReports(cfg, w, more) && Run(cfg, w, more) == Stage(n, base, k + 1, 0)
  {
    var w := Stage(n, base, k, 0);
    assert w.open == base;
    ClearRun(cfg, w, k, OwnSignal(k), Buy, 0);
    ClearIsComplete(cfg, w, k, OwnSignal(k), Buy, 0);
    assert Put(w, k, Engine({}, Cleared(OwnSignal(k), Buy, 0))).engines == Stage(n, base, k + 1, 0).engines;
  }

  lemma FireOne(cfg: Config, n: nat, base: seq<Position>, k: nat)
    requires cfg.shared && k < n
    ensures Fired(cfg, Stage(n, base, n, k), k, true) == Stage(n, base, n, k + 1)
  {
    var w, w' := Stage(n, base, n, k), Stage(n, base, n, k + 1);
    var end := Fired(cfg, w, k, true);
    assert Signals(k + 1) == Signals(k) + {OwnSignal(k)};
    assert end.claims == w'.claims;
    assert w.engines[k].attempted + {OwnSignal(k)} == {OwnSignal(k)};
    assert end.engines == w'.engines;
    assert end.sent == w'.sent;
    assert end.open == w'.open;
  }

  lemma FireSignalIsFree(k: nat)
    ensures OwnSignal(k) !in Signals(k)
  {
  }

  lemma FireRunIsComplete(cfg: Config, w: World, e: EngineId)
    requires Enabled(cfg, w, Claim(e, Won))
    ensures IsRun(cfg, w, FireSteps(e, true)) && CompleteReports(cfg, w, FireSteps(e, true))
    ensures Run(cfg, w, FireSteps(e, true)) == Fired(cfg, w, e, true)
  {
    FireRun(cfg, w, e, true);
    var more := FireSteps(e, true);
    assert more[1..] == [more[1]] && more[1..][1..] == [];
  }

  lemma FireNext(cfg: Config, n: nat, base: seq<Position>, k: nat)
    requires cfg.shared && k < n
    ensures var w, more := Stage(n, base, n, k), FireSteps(k, true);
      IsRun(cfg, w, more) && CompleteReports(cfg, w, more) && Run(cfg, w, more) == Stage(n, base, n, k + 1)
  {
    FireSignalIsFree(k);
    FireRunIsComplete(cfg, Stage(n, base, n, k), k);
    FireOne(cfg, n, base, k);
  }

  lemma {:induction false} AllFire(cfg: Config, n: nat, base: seq<Position>, k: nat) returns (steps: seq<Step>)
    requires cfg.shared && k <= n
    ensures var w := Stage(n, base, n, 0);
      IsRun(cfg, w, steps) && CompleteReports(cfg, w, steps) && Run(cfg, w, steps) == Stage(n, base, n, k)
  {
    steps := [];
    if k > 0 {
      var start, more := Stage(n, base, n, 0), FireSteps(k - 1, true);
      var before := AllFire(cfg, n, base, k - 1);
      FireNext(cfg, n, base, k - 1);
      RunConcat(cfg, start, before, more);
      CompleteConcat(cfg, start, before, more);
      steps := before + more;
    }
  }

  /** For every number of engines some run with exact reports fills the whole bound. */
  lemma CapacityIsReached(cfg: Config, n: nat, base: seq<Position>) returns (steps: seq<Step>)
    requires cfg.shared && n >= 1 && AlmostFull(cfg, base)
    ensures var w := Stage(n, base, 0, 0);
      && Initial(w) && |w.engines| == n && |w.open| < cfg.maxOpen
      && IsRun(cfg, w, steps) && CompleteReports(cfg, w, steps)
      && |Run(cfg, w, steps).open| == cfg.maxOpen + n - 1
  {
    var w := Stage(n, base, 0, 0);
    var clear := AllClear(cfg, n, base, n);
    var fire := AllFire(cfg, n, base, n);
    RunConcat(cfg, w, clear, fire);
    CompleteConcat(cfg, w, clear, fire);
    steps := clear + fire;
    assert w.engines.Keys == EngineIds(n);
  }

  function EngineIds(n: nat): (ids: set<EngineId>)
    ensures |ids| == n && forall e :: e in ids <==> 0 <= e < n
  {
    if n == 0 then {} else EngineIds(n - 1) + {n - 1}
  }
}
