// The pullback backtest: a loop that is flat, waits for a pullback, or holds
// one trade, against an arbitrary decision engine.
module PullbackBacktest {
  import opened Market
  import opened Options
  import opened Folds

  const WAIT_BARS := 5
  const EMA_TOLERANCE_ATR := 0.35
  const WINDOW := 250
  const INITIAL_BALANCE := 10000.0

  datatype Zone = Zone(low: real, high: real)

  /** What an allowed decision hands over; absent zones were not found. */
  datatype Setup = Setup(direction: Direction, lots: real, entry: real, stop: real,
                         orderBlock: Option<Zone>, fairValueGap: Option<Zone>)

  /** The history, its indicator series, and the decision engine as any function of bar and balance. */
  datatype Env = Env(candles: seq<Candle>, atr: nat -> real, ema50: nat -> real, decide: (nat, real) -> Option<Setup>)

  datatype Pending = Pending(setup: Setup, bosBar: nat)

  /** An open trade. `setup` and `bosBar` remember where it came from. */
  datatype Trade = Trade(entry: real, sl: real, tp: real, openBar: nat, setup: Setup, bosBar: nat)

  datatype Record = Record(trade: Trade, exit: real, profit: real, closeBar: nat)

  function DollarPnl(d: Direction, entry: real, exit: real, lots: real): real {
    (if d.Buy? then 1.0 else -1.0) * (exit - entry) * 100.0 * lots
  }

  /** Two-decimal formatting: nearest, ties away from zero. */
  function ToFixed2(x: real): real {
    if x < 0.0 then -((-x * 100.0 + 0.5).Floor as real / 100.0) else (x * 100.0 + 0.5).Floor as real / 100.0
  }

  function SlDistance(s: Setup): real {
    Abs(s.entry - s.stop)
  }

  predicate TouchesStop(t: Trade, c: Candle) {
    if t.setup.direction.Buy? then c.low <= t.sl else c.high >= t.sl
  }

  predicate TouchesTarget(t: Trade, c: Candle) {
    if t.setup.direction.Buy? then c.high >= t.tp else c.low <= t.tp
  }

  predicate TouchesZone(d: Direction, z: Option<Zone>, c: Candle, tolerance: real) {
    z.Some? && if d.Buy? then c.low <= z.value.high && c.low >= z.value.low - tolerance
               else c.high >= z.value.low && c.high <= z.value.high + tolerance
  }

  function ZoneEntry(d: Direction, z: Zone, c: Candle): real {
    if d.Buy? then Max(z.low, c.close) else Min(z.high, c.close)
  }

  /** The entry price when the bar has returned to a zone or to the EMA. */
  function PullbackPrice(s: Setup, c: Candle, ema: real, tolerance: real): Option<real> {
    var d := s.direction;
    if TouchesZone(d, s.orderBlock, c, tolerance) then Some(ZoneEntry(d, s.orderBlock.value, c))
    else if TouchesZone(d, s.fairValueGap, c, tolerance) then Some(ZoneEntry(d, s.fairValueGap.value, c))
    else if Abs((if d.Buy? then c.low else c.high) - ema) <= tolerance then Some(c.close)
    else None
  }

  /** The price at which bar `i` fills the setup, if it does. */
  function FillAt(env: Env, s: Setup, i: nat): Option<real>
    requires i < |env.candles|
  {
    var price := PullbackPrice(s, env.candles[i], env.ema50(i), env.atr(i) * EMA_TOLERANCE_ATR);
    if price.Some? && price.value > 0.0 then price else None
  }

  function Open(p: Pending, price: real, i: nat): Trade {
    var risk := SlDistance(p.setup);
    if p.setup.direction.Buy? then Trade(price, price - risk, price + risk * 2.0, i, p.setup, p.bosBar)
    else Trade(price, price + risk, price - risk * 2.0, i, p.setup, p.bosBar)
  }

  function ExitAt(t: Trade, c: Candle): Option<real> {
    if TouchesStop(t, c) then Some(t.sl) else if TouchesTarget(t, c) then Some(t.tp) else None
  }

  // ------------------------------------------------------------ one bar

  /** A balance peak; it starts positive and never falls. */
  type Peak = x: real | x > 0.0 witness 1.0

  datatype State = State(balance: real, peak: Peak, maxDd: real, trades: seq<Record>,
                         inTrade: Option<Trade>, pending: Option<Pending>)

  const START := State(INITIAL_BALANCE, INITIAL_BALANCE, 0.0, [], None, None)

  function Drawdown(peak: Peak, balance: real): real {
    (peak - balance) / peak * 100.0
  }

  function ExactProfit(t: Trade, exit: real): real {
    DollarPnl(t.setup.direction, t.entry, exit, t.setup.lots)
  }

  function Close(s: State, t: Trade, exit: real, i: nat): State {
    var profit := ExactProfit(t, exit);
    var balance := s.balance + profit;
    var peak := Max(s.peak, balance);
    State(balance, peak, Max(s.maxDd, Drawdown(peak, balance)),
          s.trades + [Record(t, exit, ToFixed2(profit), i)], None, None)
  }

  function Step(env: Env, s: State, i: nat): State
    requires i < |env.candles|
  {
    if s.inTrade.Some? then
      var exit := ExitAt(s.inTrade.value, env.candles[i]);
      if exit.Some? then Close(s, s.inTrade.value, exit.value, i) else s
    else if s.pending.Some? then
      var p := s.pending.value;
      if i - p.bosBar > WAIT_BARS then s.(pending := None)
      else
        var price := FillAt(env, p.setup, i);
        if price.Some? then s.(inTrade := Some(Open(p, price.value, i)), pending := None) else s
    else
      var decision := env.decide(i, s.balance);
      if decision.Some? then s.(pending := Some(Pending(decision.value, i))) else s
  }

  function StepOf(env: Env): (State, nat) -> State {
    (s: State, i: nat) => if i < |env.candles| then Step(env, s, i) else s
  }

  /** The state before bar `n`. */
  function Before(env: Env, n: nat): State {
    Fold(StepOf(env), START, WINDOW, n)
  }

  /** The exit price of an open trade on one bar, stop first. */
  method TryExit(t: Trade, candle: Candle) returns (exit: Option<real>)
    ensures exit == ExitAt(t, candle)
  {
    var closed, price := false, candle.close;
    if t.setup.direction == Buy {
      if candle.low <= t.sl { price, closed := t.sl, true; } else if candle.high >= t.tp { price, closed := t.tp, true; }
    } else {
      if candle.high >= t.sl { price, closed := t.sl, true; } else if candle.low <= t.tp { price, closed := t.tp, true; }
    }
    exit := if closed then Some(price) else None;
  }

  /** One bar of the loop: manage the trade, else the pending signal, else look for a new one. */
  method RunBar(env: Env, i: nat, balance: real, peak: Peak, maxDd: real, trades: seq<Record>,
                inTrade: Option<Trade>, pending: Option<Pending>)
    returns (balance': real, peak': Peak, maxDd': real, trades': seq<Record>,
             inTrade': Option<Trade>, pending': Option<Pending>)
    requires i < |env.candles|
    ensures State(balance', peak', maxDd', trades', inTrade', pending')
         == Step(env, State(balance, peak, maxDd, trades, inTrade, pending), i)
  {
    balance', peak', maxDd', trades' := balance, peak, maxDd, trades;
    inTrade', pending' := inTrade, pending;
    if inTrade.Some? {
      var t := inTrade.value;
      var exit := TryExit(t, env.candles[i]);
      if exit.Some? {
        var profit := ExactProfit(t, exit.value);
        balance' := balance + profit;
        peak' := Max(peak, balance');
        maxDd' := Max(maxDd, Drawdown(peak', balance'));
        trades' := trades + [Record(t, exit.value, ToFixed2(profit), i)];
        inTrade', pending' := None, None;
      }
    } else if pending.Some? {
      var p := pending.value;
      if i - p.bosBar > WAIT_BARS {
        pending' := None;
      } else {
        var price := FillAt(env, p.setup, i);
        if price.Some? {
          inTrade', pending' := Some(Open(p, price.value, i)), None;
        }
      }
    } else {
      var decision := env.decide(i, balance);
      if decision.Some? {
        pending' := Some(Pending(decision.value, i));
      }
    }
  }

  method RunPullbackBacktest(env: Env) returns (trades: seq<Record>, balance: real, maxDd: real)
    ensures var end := Before(env, |env.candles|);
      trades == end.trades && balance == end.balance && maxDd == end.maxDd
  {
    balance, maxDd, trades := INITIAL_BALANCE, 0.0, [];
    if |env.candles| <= WINDOW {
      return;
    }
    var peak: Peak := balance;
    var inTrade: Option<Trade>, pending: Option<Pending> := None, None;
    for i := WINDOW to |env.candles|
      invariant State(balance, peak, maxDd, trades, inTrade, pending) == Before(env, i)
    {
      balance, peak, maxDd, trades, inTrade, pending := RunBar(env, i, balance, peak, maxDd, trades, inTrade, pending);
    }
  }

  // --------------------------------------------------------------- the law

  /** The balance after the first trades of a run: exact profits, not the rounded ones on record. */
  function BalanceAfter(trades: seq<Record>): real {
    if trades == [] then INITIAL_BALANCE
    else
      var last := trades[|trades| - 1];
      BalanceAfter(trades[..|trades| - 1]) + ExactProfit(last.trade, last.exit)
  }

  /** Bars strictly before `i` and after the last close. */
  predicate After(trades: seq<Record>, i: nat) {
    WINDOW <= i && (trades != [] ==> trades[|trades| - 1].closeBar < i)
  }

  /** The engine allowed `setup` at `bosBar`, after `trades`, and no bar before `i` filled it. */
  predicate Waiting(env: Env, trades: seq<Record>, setup: Setup, bosBar: nat, i: nat)
    requires i <= |env.candles|
  {
    && After(trades, bosBar)
    && env.decide(bosBar, BalanceAfter(trades)) == Some(setup)
    && forall j :: bosBar < j < i ==> FillAt(env, setup, j).None?
  }

  /** `t` was opened by the first bar to fill its setup, 1 to 5 bars after the signal. */
  predicate OpenedLawfully(env: Env, trades: seq<Record>, t: Trade)
    requires t.openBar < |env.candles|
  {
    && t.bosBar < t.openBar <= t.bosBar + WAIT_BARS
    && Waiting(env, trades, t.setup, t.bosBar, t.openBar)
    && var price := FillAt(env, t.setup, t.openBar);
       price.Some? && t == Open(Pending(t.setup, t.bosBar), price.value, t.openBar)
  }

  /** No bar after the opening and before `i` touched stop or target. */
  predicate Untouched(env: Env, t: Trade, i: nat)
    requires i <= |env.candles|
  {
    forall j :: t.openBar < j < i ==> !TouchesStop(t, env.candles[j]) && !TouchesTarget(t, env.candles[j])
  }

  /** What makes `r` a legal next record after `trades`. */
  predicate Lawful(env: Env, trades: seq<Record>, r: Record) {
    var t := r.trade;
    && t.openBar < r.closeBar < |env.candles|
    && OpenedLawfully(env, trades, t) && Untouched(env, t, r.closeBar)
    && (TouchesStop(t, env.candles[r.closeBar]) || TouchesTarget(t, env.candles[r.closeBar]))
    && r.exit == (if TouchesStop(t, env.candles[r.closeBar]) then t.sl else t.tp)
    && r.profit == ToFixed2(ExactProfit(t, r.exit))
  }

  predicate AllLawful(env: Env, trades: seq<Record>) {
    trades == [] || (var n := |trades| - 1; AllLawful(env, trades[..n]) && Lawful(env, trades[..n], trades[n]))
  }

  predicate Sound(env: Env, s: State, i: nat)
    requires i <= |env.candles|
  {
    && AllLawful(env, s.trades) && s.balance == BalanceAfter(s.trades)
    && (s.trades != [] ==> s.trades[|s.trades| - 1].closeBar < i)
    && !(s.inTrade.Some? && s.pending.Some?)
    && (s.pending.Some? ==> PendingSound(env, s.trades, s.pending.value, i))
    && (s.inTrade.Some? ==> TradeSound(env, s.trades, s.inTrade.value, i))
  }

  predicate PendingSound(env: Env, trades: seq<Record>, p: Pending, i: nat)
    requires i <= |env.candles|
  {
    p.bosBar < i <= p.bosBar + WAIT_BARS + 1 && Waiting(env, trades, p.setup, p.bosBar, i)
  }

  predicate TradeSound(env: Env, trades: seq<Record>, t: Trade, i: nat)
    requires i <= |env.candles|
  {
    t.openBar < i && OpenedLawfully(env, trades, t) && Untouched(env, t, i)
  }

  lemma CloseIsSound(env: Env, s: State, i: nat)
    requires i < |env.candles| && Sound(env, s, i) && s.inTrade.Some?
    requires ExitAt(s.inTrade.value, env.candles[i]).Some?
    ensures Sound(env, Close(s, s.inTrade.value, ExitAt(s.inTrade.value, env.candles[i]).value, i), i + 1)
  {
    var next := Close(s, s.inTrade.value, ExitAt(s.inTrade.value, env.candles[i]).value, i);
    assert next.trades[..|s.trades|] == s.trades;
  }

  lemma FillIsSound(env: Env, trades: seq<Record>, p: Pending, i: nat)
    requires i < |env.candles| && PendingSound(env, trades, p, i) && i - p.bosBar <= WAIT_BARS
    requires FillAt(env, p.setup, i).Some?
    ensures TradeSound(env, trades, Open(p, FillAt(env, p.setup, i).value, i), i + 1)
  {
  }

  lemma NewSignalIsSound(env: Env, s: State, i: nat)
    requires WINDOW <= i < |env.candles| && Sound(env, s, i) && env.decide(i, s.balance).Some?
    ensures PendingSound(env, s.trades, Pending(env.decide(i, s.balance).value, i), i + 1)
  {
  }

  lemma StepIsSound(env: Env, s: State, i: nat)
    requires WINDOW <= i < |env.candles| && Sound(env, s, i)
    ensures Sound(env, Step(env, s, i), i + 1)
  {
    if s.inTrade.Some? {
      if ExitAt(s.inTrade.value, env.candles[i]).Some? {
        CloseIsSound(env, s, i);
      } else {
        assert TradeSound(env, s.trades, s.inTrade.value, i + 1);
      }
    } else if s.pending.Some? {
      var p := s.pending.value;
      if i - p.bosBar <= WAIT_BARS {
        if FillAt(env, p.setup, i).Some? {
          FillIsSound(env, s.trades, p, i);
        } else {
          assert PendingSound(env, s.trades, p, i + 1);
        }
      }
    } else if env.decide(i, s.balance).Some? {
      NewSignalIsSound(env, s, i);
    }
  }

  lemma BeforeIsSound(env: Env, n: nat)
    requires n <= |env.candles|
    ensures Sound(env, Before(env, n), n)
  {
    if n > WINDOW {
      var inv := (s: State, i: nat) => i <= |env.candles| && Sound(env, s, i);
      forall s, i: nat | WINDOW <= i < n && inv(s, i) ensures inv(StepOf(env)(s, i), i + 1) {
        StepIsSound(env, s, i);
      }
      FoldInduction(StepOf(env), START, WINDOW, inv, WINDOW, n);
      assert inv(Before(env, n), n);
    }
  }

  // ---------------------------------------------------------- what follows

  /** The closed trades of the whole run. */
  function Trades(env: Env): seq<Record> {
    Before(env, |env.candles|).trades
  }

  /** A pending signal and an open trade never coexist, on any bar. */
  lemma NeverPendingAndInTrade(env: Env, n: nat)
    requires n <= |env.candles|
    ensures !(Before(env, n).inTrade.Some? && Before(env, n).pending.Some?)
    ensures Before(env, n).balance == BalanceAfter(Before(env, n).trades)
  {
    BeforeIsSound(env, n);
  }

  lemma {:induction false} LawfulAt(env: Env, trades: seq<Record>, k: nat)
    requires AllLawful(env, trades) && k < |trades|
    ensures Lawful(env, trades[..k], trades[k])
    decreases |trades|
  {
    var n := |trades| - 1;
    if k < n {
      LawfulAt(env, trades[..n], k);
      assert trades[..n][..k] == trades[..k];
    }
  }

  /**
   * Every closed trade answers a decision taken on the exact balance of the time,
   * opens on the first of the next five bars to fill it, and closes on the first
   * later bar to touch its stop or target.
   */
  lemma EveryTradeIsLawful(env: Env, k: nat)
    requires k < |Trades(env)|
    ensures Lawful(env, Trades(env)[..k], Trades(env)[k])
  {
    BeforeIsSound(env, |env.candles|);
    LawfulAt(env, Trades(env), k);
  }

  /** Trades never overlap: each is signalled only after the one before has closed. */
  lemma {:induction false} TradesNeverOverlap(env: Env, j: nat, k: nat)
    requires j < k < |Trades(env)|
    ensures Trades(env)[j].closeBar < Trades(env)[k].trade.bosBar
    decreases k
  {
    EveryTradeIsLawful(env, k);
    assert Trades(env)[..k][k - 1] == Trades(env)[k - 1];
    if j < k - 1 {
      TradesNeverOverlap(env, j, k - 1);
      EveryTradeIsLawful(env, k - 1);
    }
  }

  /** One risk unit of a trade, in dollars. */
  function Risk(t: Trade): real {
    SlDistance(t.setup) * 100.0 * t.setup.lots
  }

  /**
   * Every closed trade earns exactly minus one or plus two risk units, and minus
   * one exactly when its closing bar touched the stop, whatever else it touched.
   */
  lemma RewardIsFixed(env: Env, k: nat)
    requires k < |Trades(env)|
    ensures var r := Trades(env)[k];
      && r.closeBar < |env.candles|
      && ExactProfit(r.trade, r.exit)
         == (if TouchesStop(r.trade, env.candles[r.closeBar]) then -Risk(r.trade) else 2.0 * Risk(r.trade))
  {
    EveryTradeIsLawful(env, k);
    ProfitAtLevels(Trades(env)[k].trade);
  }

  lemma ProfitAtLevels(t: Trade)
    requires t == Open(Pending(t.setup, t.bosBar), t.entry, t.openBar)
    ensures ExactProfit(t, t.sl) == -Risk(t)
    ensures ExactProfit(t, t.tp) == 2.0 * Risk(t)
  {
    var risk, lots := SlDistance(t.setup), t.setup.lots;
    var sign := if t.setup.direction.Buy? then 1.0 else -1.0;
    assert sign * (t.sl - t.entry) == -risk && sign * (t.tp - t.entry) == 2.0 * risk;
    SameProduct(sign * (t.sl - t.entry), -risk, lots);
    SameProduct(sign * (t.tp - t.entry), 2.0 * risk, lots);
    assert -risk * 100.0 * lots == -(risk * 100.0 * lots);
    assert 2.0 * risk * 100.0 * lots == 2.0 * (risk * 100.0 * lots);
  }

  lemma SameProduct(x: real, y: real, lots: real)
    requires x == y
    ensures x * 100.0 * lots == y * 100.0 * lots
  {
  }

  // ------------------------------------------------------- accounting

  /** The highest balance among the start and the first closes. */
  function PeakAfter(trades: seq<Record>): (peak: Peak)
    ensures peak >= INITIAL_BALANCE && peak >= BalanceAfter(trades)
  {
    if trades == [] then INITIAL_BALANCE else Max(PeakAfter(trades[..|trades| - 1]), BalanceAfter(trades))
  }

  /** The drawdown at the k-th close, in percent of the highest balance so far; zero at the start. */
  function DrawdownAt(trades: seq<Record>, k: nat): real
    requires k <= |trades|
  {
    Drawdown(PeakAfter(trades[..k]), BalanceAfter(trades[..k]))
  }

  function Drawdowns(trades: seq<Record>): (all: seq<real>)
    ensures |all| == |trades| + 1
  {
    seq(|trades| + 1, k requires 0 <= k <= |trades| => DrawdownAt(trades, k))
  }

  /** The largest of all drawdowns measured at the closes. */
  predicate IsMaxDrawdown(x: real, trades: seq<Record>) {
    IsMaximum(x, Drawdowns(trades))
  }

  predicate IsMaximum(x: real, xs: seq<real>) {
    x in xs && forall y <- xs :: y <= x
  }

  lemma {:induction false} PeakIsHighest(trades: seq<Record>)
    ensures forall k: nat :: k <= |trades| ==> BalanceAfter(trades[..k]) <= PeakAfter(trades)
    ensures exists k: nat :: k <= |trades| && BalanceAfter(trades[..k]) == PeakAfter(trades)
  {
    var n := |trades|;
    if n == 0 {
      assert BalanceAfter(trades[..0]) == PeakAfter(trades);
    } else {
      var init := trades[..n - 1];
      PeakIsHighest(init);
      forall k: nat | k <= n ensures BalanceAfter(trades[..k]) <= PeakAfter(trades) {
        if k < n {
          assert init[..k] == trades[..k];
        } else {
          assert trades[..k] == trades;
        }
      }
      if PeakAfter(trades) == BalanceAfter(trades) {
        assert trades[..n] == trades;
      } else {
        var k: nat :| k <= |init| && BalanceAfter(init[..k]) == PeakAfter(init);
        assert init[..k] == trades[..k];
      }
    }
  }

  lemma DrawdownsAppend(trades: seq<Record>, r: Record)
    ensures Drawdowns(trades + [r]) == Drawdowns(trades) + [Drawdown(PeakAfter(trades + [r]), BalanceAfter(trades + [r]))]
  {
    var all := trades + [r];
    forall k | 0 <= k <= |trades| ensures DrawdownAt(all, k) == DrawdownAt(trades, k) {
      assert all[..k] == trades[..k];
    }
    assert all[..|trades| + 1] == all;
  }

  lemma MaximumAppend(x: real, xs: seq<real>, y: real)
    requires IsMaximum(x, xs)
    ensures IsMaximum(Max(x, y), xs + [y])
  {
  }

  /** Balance, peak and drawdown are those of the trades on record. */
  ghost predicate Exact(s: State) {
    s.balance == BalanceAfter(s.trades) && s.peak == PeakAfter(s.trades) && IsMaxDrawdown(s.maxDd, s.trades)
  }

  lemma StepKeepsAccounts(env: Env, s: State, i: nat)
    requires i < |env.candles| && Exact(s)
    ensures Exact(Step(env, s, i))
  {
    if s.inTrade.Some? && ExitAt(s.inTrade.value, env.candles[i]).Some? {
      CloseKeepsAccounts(s, s.inTrade.value, ExitAt(s.inTrade.value, env.candles[i]).value, i);
    }
  }

  lemma AppendBalances(trades: seq<Record>, r: Record)
    ensures var balance := BalanceAfter(trades) + ExactProfit(r.trade, r.exit);
      BalanceAfter(trades + [r]) == balance && PeakAfter(trades + [r]) == Max(PeakAfter(trades), balance)
  {
    assert (trades + [r])[..|trades|] == trades;
  }

  lemma CloseKeepsAccounts(s: State, t: Trade, exit: real, i: nat)
    requires Exact(s)
    ensures Exact(Close(s, t, exit, i))
  {
    var next := Close(s, t, exit, i);
    var r := next.trades[|s.trades|];
    AppendBalances(s.trades, r);
    CloseKeepsDrawdown(s.trades, r, s.maxDd);
  }

  lemma CloseKeepsDrawdown(trades: seq<Record>, r: Record, x: real)
    requires IsMaxDrawdown(x, trades)
    ensures IsMaxDrawdown(Max(x, Drawdown(PeakAfter(trades + [r]), BalanceAfter(trades + [r]))), trades + [r])
  {
    DrawdownsAppend(trades, r);
    MaximumAppend(x, Drawdowns(trades), Drawdown(PeakAfter(trades + [r]), BalanceAfter(trades + [r])));
  }

  /**
   * The final balance is the initial one plus the exact profits, the peak is the
   * highest balance reached, and the reported drawdown is the largest over all closes.
   */
  lemma AccountsAreExact(env: Env, n: nat)
    requires n <= |env.candles|
    ensures Exact(Before(env, n))
  {
    assert Drawdowns([]) == [0.0];
    if n > WINDOW {
      var inv := (s: State, i: nat) => Exact(s);
      forall s, i: nat | WINDOW <= i < n && inv(s, i) ensures inv(StepOf(env)(s, i), i + 1) {
        StepKeepsAccounts(env, s, i);
      }
      FoldInduction(StepOf(env), START, WINDOW, inv, WINDOW, n);
      assert inv(Before(env, n), n);
    }
  }

  // ------------------------------------------- nothing is missed or kept too long

  predicate Idle(s: State) {
    s.inTrade.None? && s.pending.None?
  }

  lemma {:induction false} WaitsWhileUnfilled(env: Env, i: nat, j: nat)
    requires WINDOW <= i <= j <= |env.candles| && Before(env, i).inTrade.None? && Before(env, i).pending.Some?
    requires j <= Before(env, i).pending.value.bosBar + WAIT_BARS + 1
    requires forall k :: i <= k < j ==> FillAt(env, Before(env, i).pending.value.setup, k).None?
    ensures Before(env, j) == Before(env, i)
    decreases j
  {
    if i < j {
      WaitsWhileUnfilled(env, i, j - 1);
    }
  }

  /** An unfilled signal leaves no trace: after its five bars the loop is as it was before it. */
  lemma UnfilledSignalExpires(env: Env, i: nat)
    requires WINDOW <= i && i + WAIT_BARS + 2 <= |env.candles| && Idle(Before(env, i))
    requires env.decide(i, Before(env, i).balance).Some?
    requires forall k :: i < k <= i + WAIT_BARS ==>
      FillAt(env, env.decide(i, Before(env, i).balance).value, k).None?
    ensures Before(env, i + WAIT_BARS + 2) == Before(env, i)
  {
    assert Before(env, i + 1) == Step(env, Before(env, i), i);
    WaitsWhileUnfilled(env, i + 1, i + WAIT_BARS + 1);
  }

  /** The first of the five bars to fill a signal opens its trade. */
  lemma FirstFillOpens(env: Env, i: nat, k: nat)
    requires WINDOW <= i < k <= i + WAIT_BARS && k < |env.candles| && Idle(Before(env, i))
    requires env.decide(i, Before(env, i).balance).Some?
    requires var setup := env.decide(i, Before(env, i).balance).value;
      FillAt(env, setup, k).Some? && forall j :: i < j < k ==> FillAt(env, setup, j).None?
    ensures var s, setup := Before(env, i), env.decide(i, Before(env, i).balance).value;
      Before(env, k + 1) == s.(inTrade := Some(Open(Pending(setup, i), FillAt(env, setup, k).value, k)))
  {
    assert Before(env, i + 1) == Step(env, Before(env, i), i);
    WaitsWhileUnfilled(env, i + 1, k);
  }

  /** A trade is held while neither level is touched, so it closes on the first bar that touches one. */
  lemma {:induction false} HeldWhileUntouched(env: Env, i: nat, j: nat)
    requires WINDOW <= i <= j <= |env.candles| && Before(env, i).inTrade.Some?
    requires forall k :: i <= k < j ==> ExitAt(Before(env, i).inTrade.value, env.candles[k]).None?
    ensures Before(env, j) == Before(env, i)
    decreases j
  {
    if i < j {
      HeldWhileUntouched(env, i, j - 1);
    }
  }

  // --------------------------------------------------------- fill prices

  function UsedZone(s: Setup, c: Candle, tolerance: real): Option<Zone> {
    if TouchesZone(s.direction, s.orderBlock, c, tolerance) then s.orderBlock
    else if TouchesZone(s.direction, s.fairValueGap, c, tolerance) then s.fairValueGap
    else None
  }

  /**
   * The fill price was traded on its bar unless the bar lies wholly beyond the
   * zone it is said to have touched, within the tolerance.
   */
  lemma FillWasTradedIff(s: Setup, c: Candle, ema: real, tolerance: real)
    requires ValidCandle(c) && PullbackPrice(s, c, ema, tolerance).Some?
    ensures var price, zone := PullbackPrice(s, c, ema, tolerance).value, UsedZone(s, c, tolerance);
      c.low <= price <= c.high
      <==> (zone.Some? ==> if s.direction.Buy? then zone.value.low <= c.high else zone.value.high >= c.low)
  {
  }

  /** The end of the bar a pullback reaches with: its low for a buy, its high for a sell. */
  function Reach(d: Direction, c: Candle): real {
    if d.Buy? then c.low else c.high
  }

  /** The bar came back into the zone, or stopped within `tolerance` beyond its far side. */
  predicate BackIn(d: Direction, z: Option<Zone>, c: Candle, tolerance: real) {
    && z.Some?
    && (if d.Buy? then z.value.low - tolerance <= Reach(d, c) <= z.value.high
        else z.value.low <= Reach(d, c) <= z.value.high + tolerance)
  }

  /** The bar returned to the order block, the gap, or the average. */
  predicate CameBack(s: Setup, c: Candle, ema: real, tolerance: real) {
    || BackIn(s.direction, s.orderBlock, c, tolerance) || BackIn(s.direction, s.fairValueGap, c, tolerance)
    || ema - tolerance <= Reach(s.direction, c) <= ema + tolerance
  }

  /**
   * A price is found exactly when the bar came back; it is the bar's close, held inside
   * the far side of the first zone entered.
   */
  lemma PullbackPriceMeans(s: Setup, c: Candle, ema: real, tolerance: real)
    ensures var price, d := PullbackPrice(s, c, ema, tolerance), s.direction;
      var block, gap := BackIn(d, s.orderBlock, c, tolerance), BackIn(d, s.fairValueGap, c, tolerance);
      && (price.Some? <==> CameBack(s, c, ema, tolerance))
      && (block || gap ==>
            var zone := if block then s.orderBlock.value else s.fairValueGap.value;
            if d.Buy? then price.value >= c.close && price.value >= zone.low && price.value in {c.close, zone.low}
            else price.value <= c.close && price.value <= zone.high && price.value in {c.close, zone.high})
      && (price.Some? && !block && !gap ==> price.value == c.close)
  {
  }

  /** A bar fills a setup exactly when it came back and the price found is positive. */
  lemma FillsIff(env: Env, s: Setup, i: nat)
    requires i < |env.candles|
    ensures var c, ema, reach := env.candles[i], env.ema50(i), env.atr(i) * 0.35;
      && (FillAt(env, s, i).Some? <==> CameBack(s, c, ema, reach) && PullbackPrice(s, c, ema, reach).value > 0.0)
      && (FillAt(env, s, i).Some? ==> FillAt(env, s, i) == PullbackPrice(s, c, ema, reach))
  {
    PullbackPriceMeans(s, env.candles[i], env.ema50(i), env.atr(i) * EMA_TOLERANCE_ATR);
  }

  /** No bar of the trade's life before `i` reached its stop or its target. */
  predicate NothingReached(env: Env, t: Trade, i: nat)
    requires i <= |env.candles|
  {
    forall j :: t.openBar < j < i ==>
      if t.setup.direction.Buy? then env.candles[j].low > t.sl && env.candles[j].high < t.tp
      else env.candles[j].high < t.sl && env.candles[j].low > t.tp
  }

  /**
   * Every closed trade in prices: its bar came back within five bars of the signal, its
   * stop and target stand one and two planned distances away, nothing in between reached
   * either, and the closing bar decides the stop first.
   */
  lemma EveryTradeInPrices(env: Env, k: nat)
    requires k < |Trades(env)|
    ensures var r := Trades(env)[k];
      var t, buy, risk := r.trade, r.trade.setup.direction.Buy?, Abs(r.trade.setup.entry - r.trade.setup.stop);
      && WINDOW <= t.bosBar < t.openBar <= t.bosBar + 5 && t.openBar < r.closeBar < |env.candles|
      && CameBack(t.setup, env.candles[t.openBar], env.ema50(t.openBar), env.atr(t.openBar) * 0.35)
      && t.entry > 0.0
      && (if buy then t.sl == t.entry - risk && t.tp == t.entry + 2.0 * risk
          else t.sl == t.entry + risk && t.tp == t.entry - 2.0 * risk)
      && NothingReached(env, t, r.closeBar)
      && var stopped := if buy then env.candles[r.closeBar].low <= t.sl else env.candles[r.closeBar].high >= t.sl;
      && r.exit == (if stopped then t.sl else t.tp)
      && (!stopped ==> if buy then env.candles[r.closeBar].high >= t.tp else env.candles[r.closeBar].low <= t.tp)
  {
    var r := Trades(env)[k];
    var t := r.trade;
    EveryTradeIsLawful(env, k);
    PullbackPriceMeans(t.setup, env.candles[t.openBar], env.ema50(t.openBar), env.atr(t.openBar) * EMA_TOLERANCE_ATR);
  }

  /** The profit on record is the exact one to the nearest cent. */
  lemma ToFixed2IsNearest(x: real)
    ensures x - 0.005 <= ToFixed2(x) <= x + 0.005
    ensures (ToFixed2(x) * 100.0).Floor as real == ToFixed2(x) * 100.0
  {
    WholeCents(if x < 0.0 then -(-x * 100.0 + 0.5).Floor else (x * 100.0 + 0.5).Floor);
  }

  lemma WholeCents(n: int)
    ensures n as real / 100.0 * 100.0 == n as real && (n as real).Floor == n && -((-n) as real / 100.0) == n as real / 100.0
  {
  }

  /** The balance after the first `k` closes. */
  function BalanceAt(trades: seq<Record>, k: nat): real
    requires k <= |trades|
  {
    BalanceAfter(trades[..k])
  }

  /** `x` percent of the balance after `k` closes is what was lost between there and `j`, at least. */
  predicate FallsAtMost(trades: seq<Record>, k: nat, j: nat, x: real)
    requires k <= j <= |trades|
  {
    (BalanceAt(trades, k) - BalanceAt(trades, j)) * 100.0 <= x * BalanceAt(trades, k)
  }

  predicate FallsExactly(trades: seq<Record>, k: nat, j: nat, x: real)
    requires k <= j <= |trades|
  {
    BalanceAt(trades, k) > 0.0 && (BalanceAt(trades, k) - BalanceAt(trades, j)) * 100.0 == x * BalanceAt(trades, k)
  }

  /**
   * The reported drawdown is the worst fall, in percent, from any balance to a later one:
   * no fall between positive balances is worse, and some fall is as bad.
   */
  lemma DrawdownIsWorstFall(trades: seq<Record>, x: real)
    requires IsMaxDrawdown(x, trades)
    ensures forall k: nat, j: nat | k <= j <= |trades| && BalanceAt(trades, k) > 0.0 && BalanceAt(trades, j) >= 0.0 ::
              FallsAtMost(trades, k, j, x)
    ensures exists k: nat, j: nat | k <= j <= |trades| :: FallsExactly(trades, k, j, x)
  {
    forall k: nat, j: nat | k <= j <= |trades| && BalanceAt(trades, k) > 0.0 && BalanceAt(trades, j) >= 0.0
      ensures FallsAtMost(trades, k, j, x) {
      NoFallIsWorse(trades, k, j, x);
    }
    var k, j := WorstFall(trades, x);
  }

  lemma NoFallIsWorse(trades: seq<Record>, k: nat, j: nat, x: real)
    requires IsMaxDrawdown(x, trades) && k <= j <= |trades|
    requires BalanceAt(trades, k) > 0.0 && BalanceAt(trades, j) >= 0.0
    ensures FallsAtMost(trades, k, j, x)
  {
    DrawdownAtMost(trades, j, x);
    BelowPeak(trades, k, j);
    FallWithin(PeakAfter(trades[..j]), BalanceAt(trades, k), BalanceAt(trades, j), x);
  }

  lemma DrawdownAtMost(trades: seq<Record>, j: nat, x: real)
    requires IsMaxDrawdown(x, trades) && j <= |trades|
    ensures Drawdown(PeakAfter(trades[..j]), BalanceAt(trades, j)) <= x
  {
    assert Drawdowns(trades)[j] in Drawdowns(trades);
  }

  lemma BelowPeak(trades: seq<Record>, k: nat, j: nat)
    requires k <= j <= |trades|
    ensures BalanceAt(trades, k) <= PeakAfter(trades[..j])
  {
    PeakIsHighest(trades[..j]);
    assert trades[..j][..k] == trades[..k];
  }

  lemma WorstFall(trades: seq<Record>, x: real) returns (k: nat, j: nat)
    requires IsMaxDrawdown(x, trades)
    ensures k <= j <= |trades| && FallsExactly(trades, k, j, x)
  {
    j := DrawdownReached(trades, x);
    k := PeakReached(trades, j);
    FallIs(PeakAfter(trades[..j]), BalanceAt(trades, j));
  }

  lemma DrawdownReached(trades: seq<Record>, x: real) returns (j: nat)
    requires IsMaxDrawdown(x, trades)
    ensures j <= |trades| && Drawdown(PeakAfter(trades[..j]), BalanceAt(trades, j)) == x
  {
    j :| j < |Drawdowns(trades)| && Drawdowns(trades)[j] == x;
  }

  lemma PeakReached(trades: seq<Record>, j: nat) returns (k: nat)
    requires j <= |trades|
    ensures k <= j && BalanceAt(trades, k) == PeakAfter(trades[..j])
  {
    PeakIsHighest(trades[..j]);
    k :| k <= |trades[..j]| && BalanceAfter(trades[..j][..k]) == PeakAfter(trades[..j]);
    assert trades[..j][..k] == trades[..k];
  }

  lemma FallIs(peak: Peak, low: real)
    ensures (peak - low) * 100.0 == Drawdown(peak, low) * peak
  {
    var q := (peak - low) / peak;
    assert q * peak == peak - low;
  }

  lemma FallWithin(peak: Peak, high: real, low: real, x: real)
    requires 0.0 < high <= peak && low >= 0.0 && Drawdown(peak, low) <= x
    ensures (high - low) * 100.0 <= x * high
  {
    var dd := Drawdown(peak, low);
    FallIs(peak, low);
    CrossFalls(peak, high, low, dd);
    NotPositive((high - low) * 100.0 - dd * high, peak);
    assert (x - dd) * high >= 0.0;
  }

  lemma CrossFalls(peak: real, high: real, low: real, dd: real)
    requires (peak - low) * 100.0 == dd * peak && low >= 0.0 && high <= peak
    ensures ((high - low) * 100.0 - dd * high) * peak <= 0.0
  {
    assert dd * high * peak == (peak - low) * 100.0 * high;
    assert ((high - low) * 100.0 - dd * high) * peak == -100.0 * (low * (peak - high));
    assert low * (peak - high) >= 0.0;
  }

  lemma NotPositive(y: real, peak: real)
    requires y * peak <= 0.0 && peak > 0.0
    ensures y <= 0.0
  {
  }

  /** Such a bar exists: it trades between 99.8 and 99.9 and is filled at 100. */
  lemma FillOutsideBar()
    ensures var s, c := Setup(Buy, 0.1, 101.0, 100.0, Some(Zone(100.0, 101.0)), None), Candle(99.85, 99.9, 99.8, 99.85);
      ValidCandle(c) && PullbackPrice(s, c, 90.0, 0.35) == Some(100.0) && c.high < 100.0
  {
  }
}
