// The account circuit breaker: sticky halts, UTC day rollover, manual rebasing
// and the record that survives a process crash.  Every operation is first a
// function on (live fields, saved record); the class at the end updates its
// fields in place and is proved against those functions.
module Guardian {
  import opened Options
  import opened Rounding

  // ---------------------------------------------------------------- data

  /** Seconds since the epoch, UTC. */
  type Instant = int

  function Day(t: Instant): int {
    t / 86400
  }

  const TOLERANCE: real := 0.000000001
  const FRESH_SECONDS := 26 * 3600

  datatype HaltReason = NoReason | NotInitialized | DailyLoss | MaxDrawdown

  datatype Account = Account(login: string, server: string)

  datatype Baseline = Baseline(
    resetAt: Instant, tradingDay: int, realizedDayPnl: real, balance: real, equity: real,
    equityPeak: real, previousEquityPeak: real, requestId: string)

  /** The fields written to the saved record. */
  datatype Durable = Durable(
    halted: bool, haltReason: HaltReason, triggeredAt: Option<Instant>,
    equityPeak: real, sessionOpen: real, dayOpen: real, lastDay: Option<int>,
    baseline: Option<Baseline>, account: Account, dailyLimit: real, drawdownLimit: real)

  datatype Record = Record(state: Durable, writtenAt: Instant)

  /** A guardian process together with the record a later process would find. */
  datatype Memory = Memory(initialized: bool, live: Durable, saved: Option<Record>)

  datatype Metrics = Metrics(dailyPnl: real, dailyPct: real, drawdown: real)

  datatype Status = Status(
    halted: bool, reason: HaltReason, dailyPnl: real, dailyPct: real, drawdown: real,
    equityPeak: real, sessionOpen: real, dailyLimit: real, drawdownLimit: real,
    triggeredAt: Option<Instant>)

  /** Balance and equity are None when the caller has no usable number. */
  datatype ResetRequest = ResetRequest(balance: Option<real>, equity: Option<real>, requestId: string)

  /** What a new process knows before it reads the saved record. */
  datatype Config = Config(
    account: Account, dailyLimit: real, drawdownLimit: real, dailyFromEnv: bool, drawdownFromEnv: bool)

  // ---------------------------------------------------------- operations

  function Save(m: Memory, now: Instant): Memory {
    m.(saved := Some(Record(m.live, now)))
  }

  function Initialize(m: Memory, balance: real, equity: real, now: Instant): Memory {
    Save(m.(initialized := true,
            live := m.live.(equityPeak := equity, sessionOpen := balance, dayOpen := balance,
                            lastDay := Some(Day(now)), baseline := None)), now)
  }

  predicate NewDay(d: Durable, now: Instant) {
    d.lastDay.None? || Day(now) > d.lastDay.value
  }

  function RollDay(m: Memory, balance: real, now: Instant): Memory {
    if !NewDay(m.live, now) then m
    else
      var rolled := m.live.(baseline := None, dayOpen := balance, lastDay := Some(Day(now)));
      var cleared := if rolled.halted && rolled.haltReason.DailyLoss?
                     then rolled.(halted := false, haltReason := NoReason, triggeredAt := None)
                     else rolled;
      Save(m.(live := cleared), now)
  }

  function RaisePeak(m: Memory, equity: real, now: Instant): Memory {
    if equity > m.live.equityPeak then Save(m.(live := m.live.(equityPeak := equity)), now) else m
  }

  function ExpireBaseline(m: Memory, now: Instant): Memory {
    if m.live.baseline.Some? && m.live.baseline.value.tradingDay != Day(now)
    then Save(m.(live := m.live.(baseline := None)), now)
    else m
  }

  function Trip(m: Memory, reason: HaltReason, now: Instant): Memory {
    Save(m.(live := m.live.(halted := true, haltReason := reason, triggeredAt := Some(now))), now)
  }

  function Measure(d: Durable, balance: real, equity: real): Metrics {
    var raw := balance - d.dayOpen;
    var pnl := if d.baseline.Some? then raw - d.baseline.value.realizedDayPnl else raw;
    var base := if d.baseline.Some? then d.baseline.value.balance else d.dayOpen;
    Metrics(pnl,
            if base > 0.0 then pnl / base * 100.0 else 0.0,
            if d.equityPeak > 0.0 then (d.equityPeak - equity) / d.equityPeak * 100.0 else 0.0)
  }

  function Report(d: Durable, halted: bool, reason: HaltReason, x: Metrics): Status {
    Status(halted, reason, Round2(x.dailyPnl), Round4(x.dailyPct), Round4(x.drawdown), Round2(d.equityPeak),
           Round2(d.sessionOpen), d.dailyLimit, d.drawdownLimit, d.triggeredAt)
  }

  /** Day rollover, high-water mark and baseline expiry, in the order `check` does them. */
  function Refresh(m: Memory, balance: real, equity: real, now: Instant, later: Instant): Memory {
    ExpireBaseline(RaisePeak(RollDay(m, balance, now), equity, now), later)
  }

  function Evaluate(m: Memory, x: Metrics, now: Instant): Memory {
    if m.live.halted then m
    else if x.dailyPct <= -m.live.dailyLimit + TOLERANCE then Trip(m, DailyLoss, now)
    else if x.drawdown >= m.live.drawdownLimit - TOLERANCE then Trip(m, MaxDrawdown, now)
    else m
  }

  /**
   * One check.  `check` reads the clock again after the rollover test, so the
   * two readings are separate arguments and may straddle midnight.
   */
  function Check(m: Memory, balance: real, equity: real, now: Instant, later: Instant): (Memory, Status) {
    if !m.initialized then
      (m, Report(m.live, true, NotInitialized, Metrics(0.0, 0.0, 0.0)))
    else
      var m1 := Refresh(m, balance, equity, now, later);
      var x := Measure(m1.live, balance, equity);
      var m2 := Evaluate(m1, x, later);
      (m2, Report(m2.live, m2.live.halted, m2.live.haltReason, x))
  }

  function ResetHalt(m: Memory, req: ResetRequest, now: Instant): (Memory, bool) {
    if req.requestId != "" && m.live.baseline.Some? && req.requestId == m.live.baseline.value.requestId then (m, false)
    else if !m.live.halted || !m.initialized then (m, false)
    else if req.balance.None? || req.equity.None? then (m, false)
    else if req.balance.value <= 0.0 || req.equity.value <= 0.0 then (m, false)
    else
      var m1 := RollDay(m, req.balance.value, now);
      if !m1.live.halted then (m1, false) else (Rebase(m1, req, now), true)
  }

  function Rebase(m: Memory, req: ResetRequest, now: Instant): Memory
    requires req.balance.Some? && req.equity.Some?
  {
    var b := Baseline(now, Day(now), req.balance.value - m.live.dayOpen, req.balance.value, req.equity.value,
                      req.equity.value, m.live.equityPeak, req.requestId);
    Save(m.(live := m.live.(baseline := Some(b), equityPeak := req.equity.value, lastDay := Some(Day(now)),
                            halted := false, haltReason := NoReason, triggeredAt := None)), now)
  }

  /** The panel's risk update assigns both limits and writes no record. */
  function UpdateLimits(m: Memory, dailyLimit: real, drawdownLimit: real): Memory {
    m.(live := m.live.(dailyLimit := dailyLimit, drawdownLimit := drawdownLimit))
  }

  predicate SameAccount(mine: Account, saved: Account) {
    (mine.login == "" && mine.server == "") || saved.login == "" || saved.server == "" || mine == saved
  }

  predicate PositiveBaselines(d: Durable) {
    d.equityPeak > 0.0 && d.sessionOpen > 0.0 && d.dayOpen > 0.0
  }

  predicate ValidBaseline(b: Baseline, lastDay: Option<int>) {
    lastDay == Some(b.tradingDay) && b.balance > 0.0 && b.equity > 0.0 && b.equityPeak > 0.0
  }

  function Started(cfg: Config, saved: Option<Record>): Memory {
    Memory(false, Durable(false, NoReason, None, 0.0, 0.0, 0.0, None, None, cfg.account,
                          cfg.dailyLimit, cfg.drawdownLimit), saved)
  }

  function RestoreState(m: Memory, data: Durable, cfg: Config): (Memory, bool) {
    if !SameAccount(m.live.account, data.account) || !PositiveBaselines(data) then (m, false)
    else
      (m.(initialized := true, live := WithLimits(WithFigures(m.live, data), data, cfg)), true)
  }

  /** The recorded halt, balances and day; a baseline of another day is dropped. */
  function WithFigures(d: Durable, data: Durable): Durable {
    var day := if data.lastDay.Some? then data.lastDay else d.lastDay;
    Durable(data.halted, data.haltReason, data.triggeredAt, data.equityPeak, data.sessionOpen, data.dayOpen, day,
            if data.baseline.Some? && ValidBaseline(data.baseline.value, day) then data.baseline else None,
            d.account, d.dailyLimit, d.drawdownLimit)
  }

  /** Limits set by the environment win over recorded ones. */
  function WithLimits(d: Durable, data: Durable, cfg: Config): Durable {
    d.(dailyLimit := if cfg.dailyFromEnv then d.dailyLimit else data.dailyLimit,
       drawdownLimit := if cfg.drawdownFromEnv then d.drawdownLimit else data.drawdownLimit)
  }

  predicate RecordUsable(saved: Option<Record>, cfg: Config, now: Instant) {
    && saved.Some?
    && now - saved.value.writtenAt <= FRESH_SECONDS
    && SameAccount(cfg.account, saved.value.state.account)
    && PositiveBaselines(saved.value.state)
  }

  /** A crash followed by the start-up sequence of a new process. */
  function Restart(saved: Option<Record>, cfg: Config, balance: real, equity: real, now: Instant): Memory {
    var started := Started(cfg, saved);
    if RecordUsable(saved, cfg, now) then RestoreState(started, saved.value.state, cfg).0
    else if balance > 0.0 then Initialize(started, balance, equity, now)
    else started
  }

  // ---------------------------------------------------------------- runs

  datatype Op =
    | CheckOp(balance: real, equity: real, now: Instant, later: Instant)
    | ResetOp(req: ResetRequest, now: Instant)
    | LimitsOp(dailyLimit: real, drawdownLimit: real)
    | CrashOp(cfg: Config, balance: real, equity: real, now: Instant)

  datatype Seen = Checked(status: Status) | Answered(accepted: bool)

  function Apply(m: Memory, op: Op): (Memory, seq<Seen>) {
    match op
    case CheckOp(balance, equity, now, later) =>
      var (m', status) := Check(m, balance, equity, now, later); (m', [Checked(status)])
    case ResetOp(req, now) =>
      var (m', accepted) := ResetHalt(m, req, now); (m', [Answered(accepted)])
    case LimitsOp(daily, drawdown) => (UpdateLimits(m, daily, drawdown), [])
    case CrashOp(cfg, balance, equity, now) => (Restart(m.saved, cfg, balance, equity, now), [])
  }

  function Run(m: Memory, ops: seq<Op>): (Memory, seq<Seen>)
    decreases |ops|
  {
    if ops == [] then (m, [])
    else
      var (m1, first) := Apply(m, ops[0]);
      var (m2, rest) := Run(m1, ops[1..]);
      (m2, first + rest)
  }

  function WithoutCrashes(ops: seq<Op>): seq<Op> {
    if ops == [] then []
    else if ops[0].CrashOp? then WithoutCrashes(ops[1..])
    else [ops[0]] + WithoutCrashes(ops[1..])
  }

  // -------------------------------------------- the record and the fields

  predicate Synced(m: Memory) {
    m.saved.Some? && m.saved.value.state == m.live
  }

  /** The record holds every field except perhaps the limits. */
  predicate SyncedButLimits(m: Memory) {
    && m.saved.Some?
    && m.live == m.saved.value.state.(dailyLimit := m.live.dailyLimit, drawdownLimit := m.live.drawdownLimit)
  }

  predicate InOrder(d: Durable) {
    && d.lastDay.Some?
    && PositiveBaselines(d)
    && (d.baseline.Some? ==> ValidBaseline(d.baseline.value, d.lastDay))
  }

  /** What every guardian that has seen only positive balances and no limit change looks like. */
  predicate Sound(m: Memory) {
    m.initialized && Synced(m) && InOrder(m.live)
  }

  /** The same when the panel may have changed the limits. */
  predicate SoundButLimits(m: Memory) {
    m.initialized && SyncedButLimits(m) && InOrder(m.live)
  }

  predicate PositiveOp(op: Op) {
    op.CheckOp? ==> op.balance > 0.0
  }

  /** The conditions under which the new process finds and keeps everything. */
  predicate CleanCrash(m: Memory, op: Op)
    requires op.CrashOp?
  {
    && RecordUsable(m.saved, op.cfg, op.now)
    && op.cfg.account == m.live.account
    && (op.cfg.dailyFromEnv ==> op.cfg.dailyLimit == m.live.dailyLimit)
    && (op.cfg.drawdownFromEnv ==> op.cfg.drawdownLimit == m.live.drawdownLimit)
  }

  /** The new process finds the record of this account, whatever its environment says about limits. */
  predicate FindsRecord(m: Memory, op: Op)
    requires op.CrashOp?
  {
    RecordUsable(m.saved, op.cfg, op.now) && op.cfg.account == m.live.account
  }

  predicate CleanRun(m: Memory, ops: seq<Op>)
    decreases |ops|
  {
    ops != [] ==>
      && PositiveOp(ops[0])
      && !ops[0].LimitsOp?
      && (ops[0].CrashOp? ==> CleanCrash(m, ops[0]))
      && CleanRun(Apply(m, ops[0]).0, ops[1..])
  }

  /** A day is a UTC calendar day. */
  lemma DayIs(t: Instant, day: int)
    ensures Day(t) == day <==> day * 24 * 60 * 60 <= t < (day + 1) * 24 * 60 * 60
  {
  }

  /** What is left of a run without its crashes: its other operations, in order. */
  lemma CrashesAreDropped(ops: seq<Op>, more: seq<Op>)
    ensures forall op <- WithoutCrashes(ops) :: op in ops && !op.CrashOp?
    ensures (forall op <- ops :: !op.CrashOp?) ==> WithoutCrashes(ops) == ops
    ensures WithoutCrashes(ops + more) == WithoutCrashes(ops) + WithoutCrashes(more)
  {
    OthersAreKept(ops);
    WithoutCrashesConcat(ops, more);
  }

  lemma {:induction false} OthersAreKept(ops: seq<Op>)
    ensures forall op <- WithoutCrashes(ops) :: op in ops && !op.CrashOp?
    ensures (forall op <- ops :: !op.CrashOp?) ==> WithoutCrashes(ops) == ops
    decreases |ops|
  {
    if ops != [] {
      assert ops == [ops[0]] + ops[1..];
      OthersAreKept(ops[1..]);
    }
  }

  lemma {:induction false} WithoutCrashesConcat(ops: seq<Op>, more: seq<Op>)
    ensures WithoutCrashes(ops + more) == WithoutCrashes(ops) + WithoutCrashes(more)
    decreases |ops|
  {
    if ops == [] {
      assert ops + more == more;
    } else {
      assert (ops + more)[0] == ops[0] && (ops + more)[1..] == ops[1..] + more;
      WithoutCrashesConcat(ops[1..], more);
    }
  }

  lemma InitializeIsSound(m: Memory, balance: real, equity: real, now: Instant)
    requires balance > 0.0 && equity > 0.0
    ensures Sound(Initialize(m, balance, equity, now))
  {
  }

  /** Checks and resets leave the record equal to the fields they changed. */
  lemma CheckKeepsSound(m: Memory, balance: real, equity: real, now: Instant, later: Instant)
    requires Sound(m) && balance > 0.0
    ensures Sound(Check(m, balance, equity, now, later).0)
  {
    var m1 := RollDay(m, balance, now);
    assert Sound(m1);
    var m2 := RaisePeak(m1, equity, now);
    assert Sound(m2);
    var m3 := ExpireBaseline(m2, later);
    assert Sound(m3);
  }

  lemma ResetKeepsSound(m: Memory, req: ResetRequest, now: Instant)
    requires Sound(m)
    ensures Sound(ResetHalt(m, req, now).0)
  {
    if req.balance.Some? && req.balance.value > 0.0 {
      assert Sound(RollDay(m, req.balance.value, now));
    }
  }

  /** No operation that keeps balances positive and finds its record disturbs more than the limits. */
  lemma OpKeepsSoundButLimits(m: Memory, op: Op)
    requires SoundButLimits(m) && PositiveOp(op) && (op.CrashOp? ==> FindsRecord(m, op))
    ensures SoundButLimits(Apply(m, op).0)
  {
    match op {
      case CheckOp(balance, equity, now, later) => CheckKeepsSoundButLimits(m, balance, equity, now, later);
      case ResetOp(req, now) => ResetKeepsSoundButLimits(m, req, now);
      case LimitsOp(_, _) =>
      case CrashOp(_, _, _, _) => CrashKeepsAllButLimits(m, op);
    }
  }

  lemma CheckKeepsSoundButLimits(m: Memory, balance: real, equity: real, now: Instant, later: Instant)
    requires SoundButLimits(m) && balance > 0.0
    ensures SoundButLimits(Check(m, balance, equity, now, later).0)
  {
    var m1 := RollDay(m, balance, now);
    assert SoundButLimits(m1);
    var m2 := RaisePeak(m1, equity, now);
    assert SoundButLimits(m2);
    var m3 := ExpireBaseline(m2, later);
    assert SoundButLimits(m3);
  }

  lemma ResetKeepsSoundButLimits(m: Memory, req: ResetRequest, now: Instant)
    requires SoundButLimits(m)
    ensures SoundButLimits(ResetHalt(m, req, now).0)
  {
    if req.balance.Some? && req.balance.value > 0.0 {
      assert SoundButLimits(RollDay(m, req.balance.value, now));
    }
  }

  /** A crash that finds its record loses at most the limits. */
  lemma CrashKeepsAllButLimits(m: Memory, op: Op)
    requires SoundButLimits(m) && op.CrashOp? && FindsRecord(m, op)
    ensures var m1 := Apply(m, op).0;
      m1 == m.(live := m.live.(dailyLimit := m1.live.dailyLimit, drawdownLimit := m1.live.drawdownLimit))
  {
  }

  /** With every field intact, crashing and restarting changes nothing at all. */
  lemma CleanCrashIsIdentity(m: Memory, op: Op)
    requires Sound(m) && op.CrashOp? && CleanCrash(m, op)
    ensures Apply(m, op) == (m, [])
  {
  }

  /**
   * Crash transparency: deleting every crash from a run changes neither the
   * final state nor any status or answer the caller sees.
   */
  lemma {:induction false} CrashesAreInvisible(m: Memory, ops: seq<Op>)
    requires Sound(m) && CleanRun(m, ops)
    ensures Run(m, ops) == Run(m, WithoutCrashes(ops))
    ensures Sound(Run(m, ops).0)
    decreases |ops|
  {
    if ops != [] {
      var m1 := Apply(m, ops[0]).0;
      match ops[0] {
        case CheckOp(b, e, now, later) => CheckKeepsSound(m, b, e, now, later);
        case ResetOp(req, now) => ResetKeepsSound(m, req, now);
        case LimitsOp(_, _) =>
        case CrashOp(_, _, _, _) => CleanCrashIsIdentity(m, ops[0]);
      }
      CrashesAreInvisible(m1, ops[1..]);
      if !ops[0].CrashOp? {
        var kept := WithoutCrashes(ops);
        assert kept[0] == ops[0] && kept[1..] == WithoutCrashes(ops[1..]);
      } else {
        assert m1 == m && Apply(m, ops[0]).1 == [];
        var rest := Run(m, ops[1..]);
        assert [] + rest.1 == rest.1;
        assert Run(m, ops) == rest;
      }
    }
  }

  /**
   * A halt outlives a crash exactly when the record is at most 26 hours old
   * and belongs to this account; otherwise the new process starts cold.
   */
  lemma HaltSurvivesCrashIff(m: Memory, cfg: Config, balance: real, equity: real, now: Instant)
    requires SoundButLimits(m) && m.live.halted
    ensures Restart(m.saved, cfg, balance, equity, now).live.halted
       <==> (now - m.saved.value.writtenAt <= FRESH_SECONDS && SameAccount(cfg.account, m.live.account))
  {
  }

  /**
   * A limit change from the panel is not written to the record, so a crash
   * keeps it exactly when the record, or the environment, holds the same value.
   */
  lemma LimitChangeSurvivesCrashIff(m: Memory, daily: real, drawdown: real, op: Op)
    requires Sound(m) && op.CrashOp?
    requires RecordUsable(m.saved, op.cfg, op.now) && op.cfg.account == m.live.account
    ensures Apply(UpdateLimits(m, daily, drawdown), op).0 == UpdateLimits(m, daily, drawdown)
       <==> (&& daily == (if op.cfg.dailyFromEnv then op.cfg.dailyLimit else m.live.dailyLimit)
             && drawdown == (if op.cfg.drawdownFromEnv then op.cfg.drawdownLimit else m.live.drawdownLimit))
  {
    var changed := UpdateLimits(m, daily, drawdown);
    assert Apply(changed, op).0.live ==
           m.live.(dailyLimit := if op.cfg.dailyFromEnv then op.cfg.dailyLimit else m.live.dailyLimit,
                   drawdownLimit := if op.cfg.drawdownFromEnv then op.cfg.drawdownLimit else m.live.drawdownLimit);
  }

  // ------------------------------------------------ what a restart accepts

  /** Both accounts are known and differ. */
  predicate OtherAccount(mine: Account, saved: Account) {
    && (mine.login != "" || mine.server != "") && saved.login != "" && saved.server != ""
    && (mine.login != saved.login || mine.server != saved.server)
  }

  /**
   * A record is refused, and nothing changes, exactly for another account or a figure
   * that is not positive; an accepted one starts the guardian with the recorded halt and
   * figures, and keeps the reset of the recorded day only.
   */
  lemma RestoreAcceptedIff(m: Memory, data: Durable, cfg: Config)
    ensures var (m', accepted) := RestoreState(m, data, cfg);
      && (accepted <==> !OtherAccount(m.live.account, data.account)
                        && data.equityPeak > 0.0 && data.sessionOpen > 0.0 && data.dayOpen > 0.0)
      && (!accepted ==> m' == m)
      && (accepted ==>
            var d := m'.live;
            && m'.initialized && m'.saved == m.saved && d.account == m.live.account
            && (d.halted, d.haltReason, d.triggeredAt) == (data.halted, data.haltReason, data.triggeredAt)
            && (d.equityPeak, d.sessionOpen, d.dayOpen) == (data.equityPeak, data.sessionOpen, data.dayOpen)
            && d.lastDay == (if data.lastDay.Some? then data.lastDay else m.live.lastDay)
            && (d.baseline.Some? <==>
                  && data.baseline.Some? && d.lastDay == Some(data.baseline.value.tradingDay)
                  && data.baseline.value.balance > 0.0 && data.baseline.value.equity > 0.0
                  && data.baseline.value.equityPeak > 0.0)
            && (d.baseline.Some? ==> d.baseline == data.baseline))
  {
  }

  /**
   * A new process without a usable record starts cold and unhalted with the limits of its
   * environment: running, and on record, exactly when it has a positive balance.
   */
  lemma ColdStart(saved: Option<Record>, cfg: Config, balance: real, equity: real, now: Instant)
    requires saved.None? || now - saved.value.writtenAt > 26 * 3600
             || OtherAccount(cfg.account, saved.value.state.account) || !PositiveBaselines(saved.value.state)
    ensures var m := Restart(saved, cfg, balance, equity, now);
      && !m.live.halted && m.live.baseline.None? && m.live.account == cfg.account
      && (m.live.dailyLimit, m.live.drawdownLimit) == (cfg.dailyLimit, cfg.drawdownLimit)
      && (m.initialized <==> balance > 0.0)
      && (balance > 0.0 ==>
            (m.live.dayOpen, m.live.equityPeak, m.live.lastDay) == (balance, equity, Some(Day(now))) && Synced(m))
      && (balance <= 0.0 ==> m.saved == saved)
  {
  }

  /** Before initialisation every check reports a halt and changes nothing. */
  lemma UninitialisedCheckHalts(m: Memory, balance: real, equity: real, now: Instant, later: Instant)
    requires !m.initialized
    ensures var (m', status) := Check(m, balance, equity, now, later);
      m' == m && status.halted && status.reason.NotInitialized?
      && (status.dailyPnl, status.dailyPct, status.drawdown) == (0.0, 0.0, 0.0)
  {
  }

  /** A check on the recorded day that raises no peak, expires no reset and reaches no limit writes nothing. */
  lemma QuietCheckChangesNothing(m: Memory, balance: real, equity: real, now: Instant, later: Instant)
    requires Watching(m) && balance > 0.0 && Day(now) <= m.live.lastDay.value && equity <= m.live.equityPeak
    requires m.live.baseline.Some? ==> m.live.baseline.value.tradingDay == Day(later)
    requires !Reaches(TrackOf(m.live), CheckOp(balance, equity, now, later))
    ensures Check(m, balance, equity, now, later).0 == m
  {
    CheckHaltsIff(m, balance, equity, now, later);
  }

  // ------------------------------------------------------- what halts mean

  predicate InsideLimits(d: Durable, x: Metrics) {
    x.dailyPct > -d.dailyLimit + TOLERANCE && x.drawdown < d.drawdownLimit - TOLERANCE
  }

  /** An unhalted status certifies both limits for the figures just checked. */
  lemma UnhaltedMeansInsideLimits(m: Memory, balance: real, equity: real, now: Instant, later: Instant)
    ensures var (m', status) := Check(m, balance, equity, now, later);
            !status.halted ==>
              && m.initialized && !m'.live.halted
              && InsideLimits(m'.live, Measure(m'.live, balance, equity))
              && m'.live.equityPeak >= equity
  {
  }

  // ------------------------------------------- exactly when a check halts

  /**
   * What a reader of the account statement would track: the day, its opening balance,
   * a manual reset's day and balance, the best equity, and both limits.
   */
  datatype Track = Track(day: int, dayOpen: real, reset: Option<(int, real)>, peak: real,
                         dailyLimit: real, drawdownLimit: real)

  function TrackOf(d: Durable): Track
    requires d.lastDay.Some?
  {
    Track(d.lastDay.value, d.dayOpen,
          if d.baseline.Some? then Some((d.baseline.value.tradingDay, d.baseline.value.balance)) else None,
          d.equityPeak, d.dailyLimit, d.drawdownLimit)
  }

  /** The balance a check counts the day's profit from. */
  function Opening(t: Track, balance: real, now: Instant, later: Instant): real {
    if Day(now) > t.day then balance
    else if t.reset.Some? && t.reset.value.0 == Day(later) then t.reset.value.1
    else t.dayOpen
  }

  function Best(t: Track, equity: real): real {
    if equity > t.peak then equity else t.peak
  }

  /** The day's loss is at least the daily percentage of the opening balance. */
  predicate DayLost(t: Track, balance: real, now: Instant, later: Instant) {
    var opening := Opening(t, balance, now, later);
    (opening - balance) * 100.0 >= (t.dailyLimit - TOLERANCE) * opening
  }

  /** Equity has fallen from its best by at least the drawdown percentage. */
  predicate Fallen(t: Track, equity: real) {
    (Best(t, equity) - equity) * 100.0 >= (t.drawdownLimit - TOLERANCE) * Best(t, equity)
  }

  predicate Reaches(t: Track, op: Op) {
    op.CheckOp? && (DayLost(t, op.balance, op.now, op.later) || Fallen(t, op.equity))
  }

  /** How an operation that changes no halt moves the tracked figures. */
  function Advance(t: Track, op: Op): Track {
    match op
    case CheckOp(balance, equity, now, later) =>
      if Day(now) > t.day then t.(day := Day(now), dayOpen := balance, reset := None, peak := Best(t, equity))
      else t.(reset := if t.reset.Some? && t.reset.value.0 == Day(later) then t.reset else None, peak := Best(t, equity))
    case LimitsOp(daily, drawdown) => t.(dailyLimit := daily, drawdownLimit := drawdown)
    case _ => t
  }

  /** Before any reset the recorded profit is what it forgave: profit then counts from the reset balance. */
  predicate Anchored(d: Durable) {
    d.baseline.Some? ==> d.dayOpen + d.baseline.value.realizedDayPnl == d.baseline.value.balance
  }

  /** A running guardian that has not halted. */
  predicate Watching(m: Memory) {
    SoundButLimits(m) && Anchored(m.live) && !m.live.halted
  }

  lemma PercentLost(loss: real, base: real, limit: real)
    requires base > 0.0
    ensures -loss / base * 100.0 <= -limit + TOLERANCE <==> loss * 100.0 >= (limit - TOLERANCE) * base
    ensures loss / base * 100.0 >= limit - TOLERANCE <==> loss * 100.0 >= (limit - TOLERANCE) * base
  {
    var q, k := loss / base, limit - TOLERANCE;
    assert q * base == loss;
    assert -loss / base == -q by {
      assert -q * base == -loss;
    }
    if q * 100.0 >= k {
      assert (q * 100.0 - k) * base >= 0.0;
    } else {
      assert (k - q * 100.0) * base > 0.0;
    }
    assert (q * 100.0 - k) * base == loss * 100.0 - k * base;
  }

  lemma RefreshTracks(m: Memory, balance: real, equity: real, now: Instant, later: Instant)
    requires SoundButLimits(m) && Anchored(m.live) && balance > 0.0
    ensures var d, t := Refresh(m, balance, equity, now, later).live, TrackOf(m.live);
      && d.lastDay.Some? && TrackOf(d) == Advance(t, CheckOp(balance, equity, now, later))
      && Anchored(d) && Opening(t, balance, now, later) > 0.0 && Best(t, equity) > 0.0
      && (!m.live.halted ==> !d.halted && d.haltReason == m.live.haltReason)
      && var x := Measure(d, balance, equity);
      && x.dailyPnl == balance - Opening(t, balance, now, later)
      && x.dailyPct == (balance - Opening(t, balance, now, later)) / Opening(t, balance, now, later) * 100.0
      && x.drawdown == (Best(t, equity) - equity) / Best(t, equity) * 100.0
  {
  }

  /**
   * A running guardian halts on a check exactly when the day's loss or the fall from
   * the best equity reaches its limit, and for the daily loss exactly when that figure
   * does; the status reports the figures of the account statement.
   */
  lemma CheckHaltsIff(m: Memory, balance: real, equity: real, now: Instant, later: Instant)
    requires Watching(m) && balance > 0.0
    ensures var (m', status), t := Check(m, balance, equity, now, later), TrackOf(m.live);
      var lost, fallen := DayLost(t, balance, now, later), Fallen(t, equity);
      && (status.halted <==> lost || fallen) && (m'.live.halted <==> lost || fallen)
      && status.reason == (if lost then DailyLoss else if fallen then MaxDrawdown else m.live.haltReason)
      && Opening(t, balance, now, later) > 0.0 && Best(t, equity) > 0.0
      && CountsFrom(status, Opening(t, balance, now, later), Best(t, equity), balance, equity)
      && (status.dailyLimit, status.drawdownLimit) == (t.dailyLimit, t.drawdownLimit)
      && status.sessionOpen == Round2(m.live.sessionOpen)
      && status.triggeredAt == (if lost || fallen then Some(later) else m'.live.triggeredAt)
  {
    RefreshTracks(m, balance, equity, now, later);
    ReadingTheFigures(TrackOf(m.live), balance, equity, now, later);
    var m1 := Refresh(m, balance, equity, now, later);
    EvaluateIs(m1, Measure(m1.live, balance, equity), later);
  }

  /** Percentages and money agree on which limit is reached. */
  lemma ReadingTheFigures(t: Track, balance: real, equity: real, now: Instant, later: Instant)
    requires Opening(t, balance, now, later) > 0.0 && Best(t, equity) > 0.0
    ensures var b0, high := Opening(t, balance, now, later), Best(t, equity);
      && ((balance - b0) / b0 * 100.0 <= -t.dailyLimit + TOLERANCE <==> DayLost(t, balance, now, later))
      && ((high - equity) / high * 100.0 >= t.drawdownLimit - TOLERANCE <==> Fallen(t, equity))
  {
    var b0, high := Opening(t, balance, now, later), Best(t, equity);
    PercentLost(b0 - balance, b0, t.dailyLimit);
    assert -(b0 - balance) == balance - b0;
    PercentLost(high - equity, high, t.drawdownLimit);
  }

  lemma EvaluateIs(m: Memory, x: Metrics, now: Instant)
    requires !m.live.halted
    ensures var d, lost, fallen := Evaluate(m, x, now).live, x.dailyPct <= -m.live.dailyLimit + TOLERANCE,
                                   x.drawdown >= m.live.drawdownLimit - TOLERANCE;
      && d == m.live.(halted := lost || fallen, haltReason := d.haltReason, triggeredAt := d.triggeredAt)
      && d.haltReason == (if lost then DailyLoss else if fallen then MaxDrawdown else m.live.haltReason)
      && d.triggeredAt == (if lost || fallen then Some(now) else m.live.triggeredAt)
  {
  }

  /** Positive balances; crashes find the record and cost no limit. */
  predicate WatchedRun(m: Memory, ops: seq<Op>)
    decreases |ops|
  {
    ops != [] ==>
      && PositiveOp(ops[0])
      && (ops[0].CrashOp? ==> FindsRecord(m, ops[0]) && TrackOfMemory(Apply(m, ops[0]).0) == TrackOfMemory(m))
      && WatchedRun(Apply(m, ops[0]).0, ops[1..])
  }

  function TrackOfMemory(m: Memory): Option<Track> {
    if m.live.lastDay.Some? then Some(TrackOf(m.live)) else None
  }

  predicate NoneReaches(t: Track, ops: seq<Op>)
    decreases |ops|
  {
    ops != [] ==> !Reaches(t, ops[0]) && NoneReaches(Advance(t, ops[0]), ops[1..])
  }

  /** No status of the run reports a halt. */
  predicate NeverHalted(seen: seq<Seen>) {
    forall x <- seen :: x.Checked? ==> !x.status.halted
  }

  lemma WatchedCheck(m: Memory, balance: real, equity: real, now: Instant, later: Instant)
    requires Watching(m) && balance > 0.0
    ensures var op, m' := CheckOp(balance, equity, now, later), Check(m, balance, equity, now, later).0;
      && (NeverHalted(Apply(m, op).1) <==> !Reaches(TrackOf(m.live), op))
      && (!Reaches(TrackOf(m.live), op) ==>
            && !m'.live.halted && Anchored(m'.live) && m'.live.lastDay.Some?
            && TrackOf(m'.live) == Advance(TrackOf(m.live), op))
  {
    RefreshTracks(m, balance, equity, now, later);
    CheckHaltsIff(m, balance, equity, now, later);
    assert Checked(Check(m, balance, equity, now, later).1) in Apply(m, CheckOp(balance, equity, now, later)).1;
  }

  lemma WatchedStep(m: Memory, op: Op)
    requires Watching(m) && WatchedRun(m, [op])
    ensures NeverHalted(Apply(m, op).1) <==> !Reaches(TrackOf(m.live), op)
    ensures NeverHalted(Apply(m, op).1) ==>
              var m' := Apply(m, op).0; Watching(m') && TrackOf(m'.live) == Advance(TrackOf(m.live), op)
  {
    assert [op][0] == op;
    OpKeepsSoundButLimits(m, op);
    match op {
      case CheckOp(balance, equity, now, later) => WatchedCheck(m, balance, equity, now, later);
      case ResetOp(_, _) =>
      case LimitsOp(_, _) =>
      case CrashOp(_, _, _, _) => CrashKeepsAllButLimits(m, op);
    }
  }

  /**
   * Over every run of checks, resets, limit changes and crashes that cost no limit, no
   * check halts if and only if the account's figures stay inside the limits throughout.
   */
  lemma {:induction false} NeverHaltedIff(m: Memory, ops: seq<Op>)
    requires Watching(m) && WatchedRun(m, ops)
    ensures NeverHalted(Run(m, ops).1) <==> NoneReaches(TrackOf(m.live), ops)
    decreases |ops|
  {
    if ops != [] {
      var (m1, first) := Apply(m, ops[0]);
      WatchedStep(m, ops[0]);
      HaltedConcat(first, Run(m1, ops[1..]).1);
      if NeverHalted(first) {
        NeverHaltedIff(m1, ops[1..]);
      }
    }
  }

  lemma HaltedConcat(a: seq<Seen>, b: seq<Seen>)
    ensures NeverHalted(a + b) <==> NeverHalted(a) && NeverHalted(b)
  {
    assert forall x :: x in a + b <==> x in a || x in b;
  }

  predicate AcceptedReset(m: Memory, op: Op) {
    op.ResetOp? && ResetHalt(m, op.req, op.now).1
  }

  /** No operation of the run is an accepted reset; crashes find their record. */
  predicate NoAcceptedReset(m: Memory, ops: seq<Op>)
    decreases |ops|
  {
    ops != [] ==>
      && PositiveOp(ops[0])
      && !AcceptedReset(m, ops[0])
      && (ops[0].CrashOp? ==> FindsRecord(m, ops[0]))
      && NoAcceptedReset(Apply(m, ops[0]).0, ops[1..])
  }

  predicate ReplayOf(m: Memory, req: ResetRequest) {
    req.requestId != "" && m.live.baseline.Some? && req.requestId == m.live.baseline.value.requestId
  }

  predicate UsableFigures(req: ResetRequest) {
    req.balance.Some? && req.equity.Some? && req.balance.value > 0.0 && req.equity.value > 0.0
  }

  /** The operation reads the clock on a later UTC day than the last one counted. */
  predicate RollsOver(m: Memory, op: Op) {
    match op
    case CheckOp(_, _, now, _) => NewDay(m.live, now)
    case ResetOp(req, now) => NewDay(m.live, now) && UsableFigures(req) && !ReplayOf(m, req)
    case _ => false
  }

  /** A later day lifts a daily-loss halt, unless the check that notices it trips on a limit of nothing. */
  predicate DayLiftsHalt(m: Memory, op: Op) {
    && m.live.haltReason.DailyLoss? && RollsOver(m, op)
    && (op.CheckOp? ==> m.live.dailyLimit > TOLERANCE)
  }

  /**
   * One operation, limit changes and crashes included, lifts a halt exactly as
   * an accepted reset or, for daily loss, on a later day.
   */
  lemma HaltStaysIff(m: Memory, op: Op)
    requires SoundButLimits(m) && m.live.halted
    requires PositiveOp(op) && (op.CrashOp? ==> FindsRecord(m, op))
    ensures (Apply(m, op).0.live.halted && Apply(m, op).0.live.haltReason == m.live.haltReason)
       <==> !AcceptedReset(m, op) && !DayLiftsHalt(m, op)
  {
    match op {
      case CheckOp(b, e, now, later) =>
        if m.live.haltReason.DailyLoss? && NewDay(m.live, now) {
          RolloverForgivesTheDay(m, b, e, now, later);
        }
      case ResetOp(req, now) =>
      case LimitsOp(_, _) =>
      case CrashOp(_, _, _, _) => CrashKeepsAllButLimits(m, op);
    }
  }

  /** A new day lifts a daily-loss halt with its reason and time, drops the reset, and leaves a drawdown halt alone. */
  lemma NewDayLiftsDailyLossOnly(m: Memory, balance: real, now: Instant)
    requires NewDay(m.live, now) && m.live.halted
    ensures var d := RollDay(m, balance, now).live;
      && d.dayOpen == balance && d.lastDay == Some(Day(now)) && d.baseline.None?
      && (m.live.haltReason.DailyLoss? ==> !d.halted && d.haltReason.NoReason? && d.triggeredAt.None?)
      && (!m.live.haltReason.DailyLoss? ==>
            (d.halted, d.haltReason, d.triggeredAt) == (true, m.live.haltReason, m.live.triggeredAt))
  {
  }

  /** The first check of a new day measures no daily loss. */
  lemma RolloverForgivesTheDay(m: Memory, balance: real, equity: real, now: Instant, later: Instant)
    requires NewDay(m.live, now) && balance > 0.0
    ensures Measure(Refresh(m, balance, equity, now, later).live, balance, equity).dailyPct == 0.0
  {
    var d := Refresh(m, balance, equity, now, later).live;
    assert d.baseline.None? && d.dayOpen == balance;
  }

  /** Every clock reading of the run falls on `day` or earlier. */
  predicate NoLaterDay(ops: seq<Op>, day: int) {
    forall op <- ops :: (op.CheckOp? || op.ResetOp?) ==> Day(op.now) <= day
  }

  /**
   * A drawdown halt lasts through every run without an accepted reset; a
   * daily-loss halt lasts through every such run that stays on its UTC day.
   */
  lemma {:induction false} HaltLasts(m: Memory, ops: seq<Op>, day: int)
    requires SoundButLimits(m) && m.live.halted
    requires NoAcceptedReset(m, ops)
    requires m.live.haltReason.DailyLoss? ==> m.live.lastDay == Some(day) && NoLaterDay(ops, day)
    ensures var m' := Run(m, ops).0; m'.live.halted && m'.live.haltReason == m.live.haltReason
    decreases |ops|
  {
    if ops != [] {
      assert m.live.haltReason.DailyLoss? ==> !RollsOver(m, ops[0]);
      HaltStep(m, ops[0]);
      HaltLasts(Apply(m, ops[0]).0, ops[1..], day);
    }
  }

  /** One operation that neither resets nor, for daily loss, rolls over keeps halt, reason and day. */
  lemma HaltStep(m: Memory, op: Op)
    requires SoundButLimits(m) && m.live.halted && PositiveOp(op) && (op.CrashOp? ==> FindsRecord(m, op))
    requires !AcceptedReset(m, op) && (m.live.haltReason.DailyLoss? ==> !RollsOver(m, op))
    ensures var m' := Apply(m, op).0;
      && SoundButLimits(m') && m'.live.halted && m'.live.haltReason == m.live.haltReason
      && (m.live.haltReason.DailyLoss? ==> m'.live.lastDay == m.live.lastDay)
  {
    HaltStaysIff(m, op);
    OpKeepsSoundButLimits(m, op);
    if op.CrashOp? {
      CrashKeepsAllButLimits(m, op);
    }
  }

  // ------------------------------------------------ after a manual reset

  /** On `day`, losses count from balance `b0` and drawdown from `peak`. */
  predicate Rebased(m: Memory, day: int, b0: real, peak: real, id: string) {
    && SoundButLimits(m)
    && m.live.lastDay == Some(day)
    && m.live.baseline.Some?
    && m.live.baseline.value.tradingDay == day
    && m.live.baseline.value.balance == b0
    && m.live.baseline.value.requestId == id
    && m.live.dayOpen + m.live.baseline.value.realizedDayPnl == b0
    && m.live.equityPeak == peak
  }

  lemma AcceptedResetRebases(m: Memory, req: ResetRequest, now: Instant)
    requires SoundButLimits(m) && ResetHalt(m, req, now).1
    ensures Rebased(ResetHalt(m, req, now).0, Day(now), req.balance.value, req.equity.value, req.requestId)
    ensures !ResetHalt(m, req, now).0.live.halted
  {
    OpKeepsSoundButLimits(m, ResetOp(req, now));
  }

  /**
   * A reset is accepted exactly while a running guardian is halted, with usable figures
   * and a fresh id, unless the new day itself lifts the halt.
   */
  lemma ResetAcceptedIff(m: Memory, req: ResetRequest, now: Instant)
    requires SoundButLimits(m)
    ensures ResetHalt(m, req, now).1
       <==> && m.live.halted && UsableFigures(req) && !ReplayOf(m, req)
            && !(m.live.haltReason.DailyLoss? && Day(now) > m.live.lastDay.value)
  {
  }

  /** Every operation is a check on `day`, a limit change, a crash that finds its record, or a refused reset. */
  predicate SameDayRun(m: Memory, ops: seq<Op>, day: int)
    decreases |ops|
  {
    ops != [] ==> SameDayOp(m, ops[0], day) && SameDayRun(Apply(m, ops[0]).0, ops[1..], day)
  }

  predicate SameDayOp(m: Memory, op: Op, day: int) {
    && PositiveOp(op)
    && (op.CheckOp? ==> Day(op.now) == Day(op.later) == day)
    && (op.ResetOp? ==> Day(op.now) == day && !AcceptedReset(m, op))
    && (op.CrashOp? ==> FindsRecord(m, op))
  }

  /** The highest equity among `start` and every check of the run. */
  function PeakOver(start: real, ops: seq<Op>): (peak: real)
    ensures peak >= start
    ensures forall op <- ops :: op.CheckOp? ==> op.equity <= peak
    ensures peak == start || exists op <- ops :: op.CheckOp? && op.equity == peak
    decreases |ops|
  {
    if ops == [] then start
    else
      var peak := PeakOver(PeakWith(start, ops[0]), ops[1..]);
      assert forall op <- ops :: op == ops[0] || op in ops[1..];
      peak
  }

  lemma {:induction false} RebasedLasts(m: Memory, ops: seq<Op>, day: int, b0: real, peak: real, id: string)
    requires Rebased(m, day, b0, peak, id) && SameDayRun(m, ops, day)
    ensures Rebased(Run(m, ops).0, day, b0, PeakOver(peak, ops), id)
    decreases |ops|
  {
    if ops != [] {
      RebasedStep(m, ops[0], day, b0, peak, id);
      RebasedLasts(Apply(m, ops[0]).0, ops[1..], day, b0, PeakWith(peak, ops[0]), id);
    }
  }

  function PeakWith(peak: real, op: Op): real {
    if op.CheckOp? && op.equity > peak then op.equity else peak
  }

  lemma RebasedStep(m: Memory, op: Op, day: int, b0: real, peak: real, id: string)
    requires Rebased(m, day, b0, peak, id) && SameDayOp(m, op, day)
    ensures Rebased(Apply(m, op).0, day, b0, PeakWith(peak, op), id)
  {
    OpKeepsSoundButLimits(m, op);
    if op.CrashOp? {
      CrashKeepsAllButLimits(m, op);
    }
  }

  /**
   * After an accepted reset, and through any same-day run, the next check
   * reports profit since the reset and drawdown from the best equity since it.
   */
  lemma ChecksAfterResetCountFromIt(m: Memory, req: ResetRequest, now: Instant, ops: seq<Op>,
                                    balance: real, equity: real, t: Instant, later: Instant)
    requires SoundButLimits(m) && ResetHalt(m, req, now).1
    requires SameDayRun(ResetHalt(m, req, now).0, ops, Day(now))
    requires Day(t) == Day(later) == Day(now) && balance > 0.0
    ensures var before := Run(ResetHalt(m, req, now).0, ops).0;
            var high := PeakOver(req.equity.value, ops + [CheckOp(balance, equity, t, later)]);
            var status := Check(before, balance, equity, t, later).1;
            CountsFrom(status, req.balance.value, high, balance, equity)
  {
    var m0 := ResetHalt(m, req, now).0;
    AcceptedResetRebases(m, req, now);
    RebasedLasts(m0, ops, Day(now), req.balance.value, req.equity.value, req.requestId);
    PeakOverAppend(req.equity.value, ops, CheckOp(balance, equity, t, later));
    RebasedCheckReports(Run(m0, ops).0, Day(now), req.balance.value, PeakOver(req.equity.value, ops), req.requestId,
                        balance, equity, t, later);
  }

  /** A status that counts profit from `b0` and drawdown from `high`. */
  predicate CountsFrom(status: Status, b0: real, high: real, balance: real, equity: real)
    requires b0 > 0.0 && high > 0.0
  {
    && status.dailyPnl == Round2(balance - b0)
    && status.dailyPct == Round4((balance - b0) / b0 * 100.0)
    && status.drawdown == Round4((high - equity) / high * 100.0)
    && status.equityPeak == Round2(high)
  }

  lemma RebasedCheckReports(m: Memory, day: int, b0: real, peak: real, id: string,
                            balance: real, equity: real, t: Instant, later: Instant)
    requires Rebased(m, day, b0, peak, id) && Day(t) == Day(later) == day
    ensures var high, status := if equity > peak then equity else peak, Check(m, balance, equity, t, later).1;
      CountsFrom(status, b0, high, balance, equity)
  {
    var high := if equity > peak then equity else peak;
    var m1 := Refresh(m, balance, equity, t, later);
    assert m1.live == m.live.(equityPeak := high);
    assert Measure(m1.live, balance, equity)
      == Metrics(balance - b0, (balance - b0) / b0 * 100.0, (high - equity) / high * 100.0);
  }

  lemma {:induction false} PeakOverAppend(start: real, ops: seq<Op>, op: Op)
    ensures PeakOver(start, ops + [op])
         == PeakWith(PeakOver(start, ops), op)
    decreases |ops|
  {
    if ops == [] {
      assert ops + [op] == [op];
    } else {
      assert (ops + [op])[0] == ops[0] && (ops + [op])[1..] == ops[1..] + [op];
      PeakOverAppend(PeakWith(start, ops[0]), ops[1..], op);
    }
  }

  /** The run holds same-day checks, limit changes, crashes that find their record and replays of request `id`. */
  predicate ReplayRun(m: Memory, ops: seq<Op>, day: int, id: string)
    decreases |ops|
  {
    ops != [] ==>
      && PositiveOp(ops[0])
      && (ops[0].CheckOp? ==> Day(ops[0].now) == Day(ops[0].later) == day)
      && (ops[0].ResetOp? ==> Day(ops[0].now) == day && ops[0].req.requestId == id)
      && (ops[0].CrashOp? ==> FindsRecord(m, ops[0]))
      && ReplayRun(Apply(m, ops[0]).0, ops[1..], day, id)
  }

  /** Replaying an answered request never rebases again, halted or not. */
  lemma {:induction false} ReplaysAreRefused(m: Memory, ops: seq<Op>, day: int, b0: real, peak: real, id: string)
    requires id != "" && Rebased(m, day, b0, peak, id) && ReplayRun(m, ops, day, id)
    ensures forall seen <- Run(m, ops).1 :: seen.Answered? ==> !seen.accepted
    ensures Rebased(Run(m, ops).0, day, b0, PeakOver(peak, ops), id)
    decreases |ops|
  {
    if ops != [] {
      RebasedStep(m, ops[0], day, b0, peak, id);
      ReplaysAreRefused(Apply(m, ops[0]).0, ops[1..], day, b0, PeakWith(peak, ops[0]), id);
    }
  }

  /** While halted again on the same day, a replay is accepted exactly when it carries no id. */
  lemma ReplayAcceptedIff(m: Memory, day: int, b0: real, peak: real, req: ResetRequest, now: Instant)
    requires Rebased(m, day, b0, peak, req.requestId) && m.live.halted
    requires UsableFigures(req) && Day(now) == day
    ensures ResetHalt(m, req, now).1 <==> req.requestId == ""
  {
  }

  /**
   * A check that begins on the reset day and reads the clock again after
   * midnight drops the baseline before the day has rolled: it counts the loss
   * the reset had forgiven, and can halt on it.
   */
  lemma MidnightCheckForgetsTheReset(m: Memory, day: int, b0: real, peak: real, id: string,
                                     balance: real, equity: real, now: Instant, later: Instant)
    requires Rebased(m, day, b0, peak, id) && !m.live.halted && Day(now) == day < Day(later)
    ensures Check(m, balance, equity, now, later).1.dailyPnl == Round2(balance - m.live.dayOpen)
    ensures (balance - m.live.dayOpen) / m.live.dayOpen * 100.0 <= -m.live.dailyLimit + TOLERANCE
        ==> Check(m, balance, equity, now, later).1.reason == DailyLoss
  {
  }

  // ------------------------------------------------------- the entry gate

  /** The part of the trading loop that decides whether a bar may place an order. */
  datatype Robot = Robot(paused: bool, guardian: Memory)

  datatype Event =
    | Bar(balance: real, equity: real, now: Instant, later: Instant)
    | Pause
    | Resume
    | ForceResume
    | GuardianOp(op: Op)

  function CheckedGuardian(r: Robot, e: Event): (Memory, Status)
    requires e.Bar?
  {
    var g := if r.guardian.initialized then r.guardian
             else Initialize(r.guardian, e.balance, e.equity, e.now);
    Check(g, e.balance, e.equity, e.now, e.later)
  }

  predicate OrderAllowed(r: Robot, e: Event) {
    e.Bar? && !r.paused && !CheckedGuardian(r, e).1.halted
  }

  function React(r: Robot, e: Event): Robot {
    match e
    case Bar(_, _, _, _) =>
      if r.paused then r
      else
        var (g, status) := CheckedGuardian(r, e);
        Robot(status.halted, g)
    case Pause => r.(paused := true)
    case Resume => if r.guardian.live.halted then r else r.(paused := false)
    case ForceResume => r.(paused := false)
    case GuardianOp(op) =>
      var g := Apply(r.guardian, op).0;
      Robot(if op.ResetOp? && ResetHalt(r.guardian, op.req, op.now).1 then false else r.paused, g)
  }

  /**
   * A pause closes the gate: until something else happens no bar trades and the guardian
   * is not even asked.  A resume opens it exactly for an unhalted guardian, a forced
   * resume always.
   */
  lemma {:induction false} PauseClosesTheGate(r: Robot, bars: seq<Event>)
    requires forall e <- bars :: e.Bar?
    ensures var paused := React(r, Pause);
      && paused == Robot(true, r.guardian) && Orders(paused, bars) == 0
      && React(paused, Resume) == Robot(r.guardian.live.halted, r.guardian)
      && React(paused, ForceResume) == Robot(false, r.guardian)
    decreases |bars|
  {
    if bars != [] {
      assert bars[0] in bars && React(React(r, Pause), bars[0]) == React(r, Pause);
      PauseClosesTheGate(r, bars[1..]);
    }
  }

  /** A halted robot that meets no accepted reset and, for daily loss, no later day. */
  predicate HaltedStretch(r: Robot, events: seq<Event>, day: int)
    decreases |events|
  {
    events != [] ==> HaltedEvent(r, events[0], day) && HaltedStretch(React(r, events[0]), events[1..], day)
  }

  predicate HaltedEvent(r: Robot, e: Event, day: int) {
    && (e.Bar? ==> e.balance > 0.0)
    && (e.Bar? && r.guardian.live.haltReason.DailyLoss? ==> Day(e.now) <= day)
    && (e.GuardianOp? ==>
          && NoAcceptedReset(r.guardian, [e.op])
          && (r.guardian.live.haltReason.DailyLoss? ==> NoLaterDay([e.op], day)))
  }

  function Orders(r: Robot, events: seq<Event>): nat
    decreases |events|
  {
    if events == [] then 0
    else (if OrderAllowed(r, events[0]) then 1 else 0) + Orders(React(r, events[0]), events[1..])
  }

  predicate InHalt(r: Robot, day: int) {
    && SoundButLimits(r.guardian) && r.guardian.live.halted
    && (r.guardian.live.haltReason.DailyLoss? ==> r.guardian.live.lastDay == Some(day))
  }

  lemma BarKeepsHalt(r: Robot, e: Event, day: int)
    requires InHalt(r, day) && e.Bar? && HaltedEvent(r, e, day)
    ensures InHalt(React(r, e), day) && !OrderAllowed(r, e)
  {
    var op := CheckOp(e.balance, e.equity, e.now, e.later);
    HaltStep(r.guardian, op);
    assert Apply(r.guardian, op).0 == Check(r.guardian, e.balance, e.equity, e.now, e.later).0;
  }

  lemma OpKeepsHalt(r: Robot, op: Op, day: int)
    requires InHalt(r, day) && HaltedEvent(r, GuardianOp(op), day)
    ensures InHalt(React(r, GuardianOp(op)), day)
  {
    assert [op][0] == op;
    assert r.guardian.live.haltReason.DailyLoss? ==> op in [op] && !RollsOver(r.guardian, op);
    HaltStep(r.guardian, op);
  }

  /** No sequence of bars, resumes, forced resumes, limit changes and restarts trades through a halt. */
  lemma {:induction false} NoOrderWhileHalted(r: Robot, events: seq<Event>, day: int)
    requires InHalt(r, day) && HaltedStretch(r, events, day)
    ensures Orders(r, events) == 0
    decreases |events|
  {
    if events != [] {
      if events[0].Bar? {
        BarKeepsHalt(r, events[0], day);
      } else if events[0].GuardianOp? {
        OpKeepsHalt(r, events[0].op, day);
      }
      NoOrderWhileHalted(React(r, events[0]), events[1..], day);
    }
  }

  function ChecksOf(bars: seq<Event>): seq<Op>
    requires forall e <- bars :: e.Bar?
  {
    if bars == [] then []
    else [CheckOp(bars[0].balance, bars[0].equity, bars[0].now, bars[0].later)] + ChecksOf(bars[1..])
  }

  /** Every bar may place an order if and only if the figures stay inside the limits throughout. */
  lemma {:induction false} EveryBarTradesIff(r: Robot, bars: seq<Event>)
    requires Watching(r.guardian) && !r.paused && forall e <- bars :: e.Bar? && e.balance > 0.0
    ensures Orders(r, bars) <= |bars|
    ensures Orders(r, bars) == |bars| <==> NoneReaches(TrackOf(r.guardian.live), ChecksOf(bars))
    decreases |bars|
  {
    if bars != [] {
      var e, t := bars[0], TrackOf(r.guardian.live);
      var op := CheckOp(e.balance, e.equity, e.now, e.later);
      assert e in bars;
      assert ChecksOf(bars)[0] == op && ChecksOf(bars)[1..] == ChecksOf(bars[1..]);
      CheckHaltsIff(r.guardian, e.balance, e.equity, e.now, e.later);
      OrdersAtMost(React(r, e), bars[1..]);
      if !Reaches(t, op) {
        WatchedStep(r.guardian, op);
        EveryBarTradesIff(React(r, e), bars[1..]);
      }
    }
  }

  lemma {:induction false} OrdersAtMost(r: Robot, events: seq<Event>)
    ensures Orders(r, events) <= |events|
    decreases |events|
  {
    if events != [] {
      OrdersAtMost(React(r, events[0]), events[1..]);
    }
  }

  /** A cold guardian is initialised by its first bar, which may trade exactly under limits above nothing. */
  lemma FirstBarTradesIff(r: Robot, e: Event)
    requires e.Bar? && e.balance > 0.0 && e.equity > 0.0 && !r.paused && !r.guardian.initialized && !r.guardian.live.halted
    ensures OrderAllowed(r, e) <==> r.guardian.live.dailyLimit > TOLERANCE && r.guardian.live.drawdownLimit > TOLERANCE
  {
    var g := Initialize(r.guardian, e.balance, e.equity, e.now);
    CheckHaltsIff(g, e.balance, e.equity, e.now, e.later);
    var t := TrackOf(g.live);
    assert Opening(t, e.balance, e.now, e.later) == e.balance && Best(t, e.equity) == e.equity;
    SignOfProduct(t.dailyLimit - TOLERANCE, e.balance);
    SignOfProduct(t.drawdownLimit - TOLERANCE, e.equity);
  }

  lemma SignOfProduct(x: real, y: real)
    requires y > 0.0
    ensures 0.0 >= x * y <==> x <= 0.0
  {
  }

  // ---------------------------------------------------------- the objects

  class RiskGuardian {
    var dailyLimit: real
    var drawdownLimit: real
    var account: Account
    var initialized: bool
    var halted: bool
    var haltReason: HaltReason
    var triggeredAt: Option<Instant>
    var equityPeak: real
    var sessionOpen: real
    var dayOpen: real
    var lastDay: Option<int>
    var baseline: Option<Baseline>
    /** The record on disk and in the shared store. */
    var saved: Option<Record>

    function Live(): Durable
      reads this
    {
      Durable(halted, haltReason, triggeredAt, equityPeak, sessionOpen, dayOpen, lastDay, baseline, account,
              dailyLimit, drawdownLimit)
    }

    function View(): Memory
      reads this
    {
      Memory(initialized, Live(), saved)
    }

    constructor (cfg: Config, record: Option<Record>)
      ensures View() == Started(cfg, record)
    {
      dailyLimit, drawdownLimit, account := cfg.dailyLimit, cfg.drawdownLimit, cfg.account;
      initialized, halted, haltReason, triggeredAt := false, false, NoReason, None;
      equityPeak, sessionOpen, dayOpen, lastDay, baseline := 0.0, 0.0, 0.0, None, None;
      saved := record;
    }

    method SaveState(now: Instant)
      modifies this`saved
      ensures View() == Save(old(View()), now)
    {
      saved := Some(Record(Live(), now));
    }

    method InitializeFrom(balance: real, equity: real, now: Instant)
      modifies this
      ensures View() == Initialize(old(View()), balance, equity, now)
    {
      equityPeak, sessionOpen, dayOpen := equity, balance, balance;
      lastDay := Some(Day(now));
      baseline := None;
      initialized := true;
      SaveState(now);
    }

    method MaybeDayReset(balance: real, now: Instant)
      modifies this
      ensures View() == RollDay(old(View()), balance, now)
    {
      if lastDay.None? || Day(now) > lastDay.value {
        baseline := None;
        dayOpen := balance;
        lastDay := Some(Day(now));
        if halted && haltReason.DailyLoss? {
          halted, haltReason, triggeredAt := false, NoReason, None;
        }
        SaveState(now);
      }
    }

    method TriggerHalt(reason: HaltReason, now: Instant)
      modifies this
      ensures View() == Trip(old(View()), reason, now)
    {
      halted, haltReason, triggeredAt := true, reason, Some(now);
      SaveState(now);
    }

    method ActiveBaseline(now: Instant)
      modifies this
      ensures View() == ExpireBaseline(old(View()), now)
    {
      if baseline.Some? && baseline.value.tradingDay != Day(now) {
        baseline := None;
        SaveState(now);
      }
    }

    method CheckAccount(balance: real, equity: real, now: Instant, later: Instant) returns (status: Status)
      modifies this
      ensures (View(), status) == Check(old(View()), balance, equity, now, later)
    {
      if !initialized {
        status := Report(Live(), true, NotInitialized, Metrics(0.0, 0.0, 0.0));
        return;
      }
      MaybeDayReset(balance, now);
      if equity > equityPeak {
        equityPeak := equity;
        SaveState(now);
      }
      ActiveBaseline(later);
      var x := Measure(Live(), balance, equity);
      if !halted {
        if x.dailyPct <= -dailyLimit + TOLERANCE {
          TriggerHalt(DailyLoss, later);
        } else if x.drawdown >= drawdownLimit - TOLERANCE {
          TriggerHalt(MaxDrawdown, later);
        }
      }
      status := Report(Live(), halted, haltReason, x);
    }

    method Reset(req: ResetRequest, now: Instant) returns (accepted: bool)
      modifies this
      ensures (View(), accepted) == ResetHalt(old(View()), req, now)
    {
      if req.requestId != "" && baseline.Some? && req.requestId == baseline.value.requestId {
        return false;
      }
      if !halted || !initialized {
        return false;
      }
      if req.balance.None? || req.equity.None? || req.balance.value <= 0.0 || req.equity.value <= 0.0 {
        return false;
      }
      MaybeDayReset(req.balance.value, now);
      if !halted {
        return false;
      }
      baseline := Some(Baseline(now, Day(now), req.balance.value - dayOpen, req.balance.value, req.equity.value,
                                req.equity.value, equityPeak, req.requestId));
      equityPeak := req.equity.value;
      lastDay := Some(Day(now));
      halted, haltReason, triggeredAt := false, NoReason, None;
      SaveState(now);
      accepted := true;
    }

    method Restore(data: Durable, cfg: Config) returns (accepted: bool)
      modifies this
      ensures (View(), accepted) == RestoreState(old(View()), data, cfg)
    {
      if !SameAccount(account, data.account) || !PositiveBaselines(data) {
        return false;
      }
      TakeFigures(data);
      TakeLimits(data, cfg);
      initialized := true;
      accepted := true;
    }

    method TakeFigures(data: Durable)
      modifies this`halted, this`haltReason, this`triggeredAt, this`equityPeak, this`sessionOpen, this`dayOpen,
               this`lastDay, this`baseline
      ensures Live() == WithFigures(old(Live()), data)
    {
      halted, haltReason, triggeredAt := data.halted, data.haltReason, data.triggeredAt;
      equityPeak, sessionOpen, dayOpen := data.equityPeak, data.sessionOpen, data.dayOpen;
      if data.lastDay.Some? {
        lastDay := data.lastDay;
      }
      baseline := None;
      if data.baseline.Some? && ValidBaseline(data.baseline.value, lastDay) {
        baseline := data.baseline;
      }
    }

    method TakeLimits(data: Durable, cfg: Config)
      modifies this`dailyLimit, this`drawdownLimit
      ensures Live() == WithLimits(old(Live()), data, cfg)
    {
      if !cfg.dailyFromEnv {
        dailyLimit := data.dailyLimit;
      }
      if !cfg.drawdownFromEnv {
        drawdownLimit := data.drawdownLimit;
      }
    }
  }

  /** The trading loop's pause flag around one guardian. */
  class TradingLoop {
    var paused: bool
    const guardian: RiskGuardian

    constructor (g: RiskGuardian)
      ensures guardian == g && !paused
    {
      guardian := g;
      paused := false;
    }

    function AsRobot(): Robot
      reads this, guardian
    {
      Robot(paused, guardian.View())
    }

    /** Runs the gate of one bar; an order may follow only when `mayEnter`. */
    method OnNewBar(balance: real, equity: real, now: Instant, later: Instant) returns (mayEnter: bool)
      modifies this, guardian
      ensures AsRobot() == React(old(AsRobot()), Bar(balance, equity, now, later))
      ensures mayEnter == OrderAllowed(old(AsRobot()), Bar(balance, equity, now, later))
      ensures mayEnter ==> !guardian.halted && InsideLimits(guardian.Live(), Measure(guardian.Live(), balance, equity))
    {
      if paused {
        return false;
      }
      if !guardian.initialized {
        guardian.InitializeFrom(balance, equity, now);
      }
      ghost var before := guardian.View();
      var status := guardian.CheckAccount(balance, equity, now, later);
      UnhaltedMeansInsideLimits(before, balance, equity, now, later);
      paused := status.halted;
      mayEnter := !status.halted;
    }

    method ResumeCommand()
      modifies this
      ensures AsRobot() == React(old(AsRobot()), Resume)
    {
      if paused && !guardian.halted {
        paused := false;
      }
    }
  }
}
