# Verification of the gold trading robot's safety core

This project models the money-safety logic of a live XAUUSD trading robot, its
stateful signal loops and one backtest loop, and proves what they keep.  One
Dafny module stands for one component of the repository:

| module | component |
|---|---|
| `EntryProtocol`, `ClaimStore` | placing at most one order per candle with many engines, one SET-NX key store and one broker |
| `EntrySignal`, `StrategySlots` | the identity of a candle, and the one-way and slot guards with their comment tags |
| `AggregateRisk`, `OrderSizing`, `RiskRuns` | open exposure, order sizing, and the exposure bound over whole runs |
| `Guardian` | the account circuit breaker, its saved record, and the entry gate |
| `TrailingStop` | the three-stage trailing stop of every live ticket |
| `PositionRepair`, `PriceRebase` | collapsing broker position rows; re-anchoring stop and target to the quote |
| `StructureBreaks` | swing points and the BOS/CHoCH automaton |
| `DirectionalMovement` | two Wilder DMI/ADX implementations |
| `PriceAction`, `SmartStop` | price-action flags, signal and stop planning, with their BUY/SELL mirror |
| `PullbackBacktest` | the flat / pending / in-trade backtest loop |
| `Market`, `Rounding`, `Options`, `Sets`, `Folds` | candles, directions, mirrors; decimal rounding; optional values; set sizes and distinctness; loops over bars |

Prices and money are exact reals.  Every rounding the code performs is written
out as a function (`Rounding.RoundInt` rounds half to even, as Python's `round`
does; `PullbackBacktest.ToFixed2` follows JavaScript's `toFixed`).  Clocks,
quotes, broker replies, Redis answers and the decision engine are arguments or
arbitrary steps.  Code that updates fields or loops is a class or a method
proved equal to a specification function; the theorems are about that function.

## What the proofs found

Several promises of the code hold only under a condition.  Each is stated as an
if-and-only-if or beside a concrete input that breaks it.

- At most one order per candle needs the time between an engine's age check and
  its claim, plus how far the broker stamps candles ahead of the engines' clock,
  to stay below seven days minus two hours; at that sum or above, a run with two
  orders exists (`EntryProtocol.AtMostOneRequestIff`).  Without the key store no
  order is repeated if and only if there is one engine and it never crashes
  (`EntryProtocol.WithoutStoreIff`).
- Two open positions of one candle are excluded if and only if there is one
  engine, or a store below that margin (`EntryProtocol.OnePositionPerCandleIff`).
- Without hedging, engines never face both ways if and only if there is one of
  them (`EntryProtocol.OneDirectionIff`).
- A trailing request is rounded to cents whatever grid the stop is on, so a stop
  off the cent grid can be moved backward: exactly when the entry price, or past
  entry the next level, rounds to the losing side of it
  (`TrailingStop.RatchetsIff`, `TrailingStop.BreakevenIsKeptIff`,
  `TrailingStop.StagesOnlyAdvanceIff`).
- The exposure of the open tickets stays within the limit of the latest
  admission plus what slippage added to that one fill, for orders whose stop
  rounds in favour (`RiskRuns.RiskStaysBounded`).  The limit itself holds over all
  runs exactly without adverse slippage and without backward-rounding stops
  (`RiskRuns.RiskWithinLimitIff`), and for each single order filled at its entry
  exactly when its own stop rounds in favour (`RiskRuns.OrderStaysWithinLimitIff`).
- A guardian halt survives a crash only while the record is at most 26 hours old
  (`Guardian.HaltSurvivesCrashIff`); a limit changed from the panel is not saved
  (`Guardian.LimitChangeSurvivesCrashIff`); a check that straddles midnight drops
  the reset baseline before the day rolls (`Guardian.MidnightCheckForgetsTheReset`);
  a replayed reset without an id is accepted again (`Guardian.ReplayAcceptedIff`).
- Breakeven is reached only if cent rounding does not push the entry price to the
  losing side (`TrailingStop.BreakevenReachedIff`); a tick without ATR relabels an
  armed ticket as waiting (`TrailingStop.StageFallsBackIff`).
- The half-point clearance of rebased orders holds exactly when the price grid is
  no coarser than the point (`PriceRebase.ClearanceIff`); a rebased stop or target
  is positive, and sizing accepts the stop, exactly when its distance leaves more
  than half a grid unit below the quote (`PriceRebase.RebasedStopIsUsableIff`).
- A base comment of more than twelve characters truncates the slot tag, so the
  engine no longer recognises its own order (`StrategySlots.OwnOrderRecognisedIff`).
- A second deduplication pass changes nothing exactly when every duplicated
  ticket has a sane row (`PositionRepair.SecondPassIsIdentityIff`).
- The two DMI implementations agree on ADX always, but on exactly twice the
  period of candles one reports the indices of that moment and the other zeros
  (`DirectionalMovement.CalcAdxDetails`, `DirectionalMovement.CalcDmi`).
- The price-action score floor of 0.16 never decides anything
  (`PriceAction.FloorNeverDecides`).
- With exactly three candles the failed-breakout test looks at none of them,
  because its slice starts at the last one (`PriceAction.FakeoutMeans`).
- A planned stop can round past an entry that is off the cent grid: exactly when
  the stop at the noise floor does or, for a structure buffer at least as wide as
  the floor, when the stop at the ceiling or just beyond the buffer does
  (`SmartStop.StopNeverPassesEntryIff`, `SmartStop.OffGridStopPassesEntry`).
- Stop plans mirror to the cent about an even number of cents, not about an odd
  one (`SmartStop.MirrorPlan`, `SmartStop.Round2MirrorsIff`).
- The backtest can fill at a price its bar never traded
  (`PullbackBacktest.FillWasTradedIff`).

## Model

| member | source | states |
|---|---|---|
| EntryProtocol.AtMostOneRequest | live_trading/trading/live_loop.py:3756-3824 | With the shared store, and check-to-claim delay plus candle-stamp lead below the margin, no interleaving of engines, crashes, lost store answers and lost broker replies sends two requests for one signal |
| EntryProtocol.AtMostOneRequestIff | live_trading/trading/live_loop.py:3377-3386 | That holds over all runs if and only if delay plus lead is below the seven-day key life minus the two-hour trading window |
| EntryProtocol.SlowClaimRepeats | live_trading/trading/live_loop.py:1463-1480 | A run of any two or more engines that orders and fills one candle twice, for every delay and lead that reach the margin together |
| EntryProtocol.ClaimsOnlyGrow | live_trading/redis_ipc.py:147-172 | No step, marking included, shortens or removes a claim that guards its candle |
| EntryProtocol.KeyLivesSevenDays | live_trading/redis_ipc.py:121-172 | Claimed or marked, a candle is held for seven days from that moment through every run, crashes included |
| EntryProtocol.OneEngineUntilCrash | live_trading/trading/live_loop.py:3756-3824 | One engine repeats no request while it does not crash, with or without a store |
| EntryProtocol.CrashWithoutStoreRepeats | live_trading/trading/live_loop.py:3756-3824 | Without a store, for any number of engines, one crash is enough for a second request |
| EntryProtocol.TwoEnginesWithoutStoreRepeat | live_trading/trading/live_loop.py:3756-3824 | Without a store any two or more engines repeat a request with no crash at all |
| EntryProtocol.WithoutStoreIff | live_trading/trading/live_loop.py:3756-3824 | Without a store N engines repeat no request over all runs if and only if N is one and crashes are excluded |
| EntryProtocol.GuardsAreTheLiveGuards | live_trading/trading/live_loop.py:3379-3494 | On a report of broker rows a poll clears its candle exactly when no comment carries the candle, nothing was dropped, and the one-way and slot guards pass; a comment that carries it marks the candle attempted |
| EntryProtocol.CapacityIsBounded | live_trading/trading/live_loop.py:3379-3494 | N engines with complete reports never hold more than the maximum plus N - 1 positions |
| EntryProtocol.CapacityIsReached | live_trading/trading/live_loop.py:3379-3494 | For every N some run fills that bound exactly |
| EntryProtocol.OneDirection | live_trading/trading/strategy_slots.py:54-94 | One engine without hedging only ever holds positions of one direction |
| EntryProtocol.TwoEnginesFaceBothWays | live_trading/trading/live_loop.py:3379-3494 | Any two or more engines with exact reports and no hedging can end up holding opposite positions |
| EntryProtocol.OneDirectionIff | live_trading/trading/live_loop.py:3379-3494 | Without hedging N engines keep all positions on one side over all runs with complete reports if and only if N is one |
| EntryProtocol.OneEngineTradesCandlesOnce | live_trading/trading/live_loop.py:3425-3452 | One engine with complete reports never has two open positions of one candle, whatever crashes and whatever the store answers |
| EntryProtocol.SharedStoreTradesCandlesOnce | live_trading/trading/live_loop.py:3425-3452 | Neither do many engines with a shared store below the margin |
| EntryProtocol.OnePositionPerCandleIff | live_trading/trading/live_loop.py:3425-3452 | Over all runs of N engines with complete reports, open positions carry distinct candles if and only if N is one, or there is a store and delay and lead stay below the margin |
| EntryProtocol.ShutCandleStaysShut | live_trading/trading/live_loop.py:3379-3386 | Until it crashes an engine sends nothing for a candle it has attempted and left |
| EntryProtocol.ShutIff | live_trading/trading/live_loop.py:3425-3452 | A candle becomes attempted exactly when the broker reports its position or a claim is answered; failed reports, refusals and an unreachable store leave it open |
| ClaimStore.SignalStore.ClaimEntrySignal | live_trading/redis_ipc.py:121-144 | SET NX with expiry: claims a free key, refuses a live one, and after a lost reply may have set it |
| ClaimStore.SignalStore.MarkEntrySignal | live_trading/redis_ipc.py:147-172 | Records an outcome and renews the key; no live key is lost |
| ClaimStore.ClaimIsAProtocolStep | live_trading/redis_ipc.py:121-144 | Every outcome of a claim on the store is an enabled protocol step with the same keys after it |
| ClaimStore.MarkIsAProtocolStep | live_trading/redis_ipc.py:147-172 | Every outcome of marking on the store is an enabled protocol step with the same keys after it |
| EntrySignal.AliasIff | live_trading/trading/entry_signal.py:14-24 | Two recognised timeframe spellings are one name exactly when number and unit agree |
| EntrySignal.PrefixAndSuffixAgree | live_trading/trading/entry_signal.py:14-24 | M5, m5 and 5m are one timeframe |
| EntrySignal.CanonicalIsStable | live_trading/trading/entry_signal.py:14-24 | Canonical names are fixed points |
| EntrySignal.OffsetIsRemoved | live_trading/trading/entry_signal.py:26-38 | Aware timestamps are converted to UTC by their offset, naive ones are taken as UTC |
| EntrySignal.SameIdIff | live_trading/trading/entry_signal.py:26-38 | On one symbol two signal ids are equal exactly when timeframe and UTC second are |
| StrategySlots.OneWayEntryAllowed | live_trading/trading/strategy_slots.py:54-94 | Allows an entry exactly when hedging is on or every open position is known to face the same way; refusals name the first opposite ticket or the number of unreadable sides |
| StrategySlots.UnknownCountIs | live_trading/trading/strategy_slots.py:54-94 | The count in a refusal is the number of positions whose side cannot be read |
| StrategySlots.AvailableForStrategySlots | live_trading/trading/strategy_slots.py:171-193 | Room, an active slot, and only own positions, in both directions |
| StrategySlots.ActiveIff | live_trading/trading/strategy_slots.py:151-168 | A comment is recognised exactly when its first slot tag, at the start or after a bar, holds the active code and nothing else |
| StrategySlots.OwnOrderRecognisedIff | live_trading/trading/strategy_slots.py:111-168 | The comment written on an order is recognised again exactly when the base has at most twelve characters |
| AggregateRisk.PositionRisk | live_trading/risk/aggregate_risk.py:503-532 | Loss to stop of one ticket is never negative, and zero exactly for a stop at or beyond entry |
| AggregateRisk.RiskIsTicksToStop | live_trading/risk/aggregate_risk.py:503-532 | The loss to stop is the number of ticks from entry down, or for a sell up, to a stop on the losing side, times the tick value of the volume |
| AggregateRisk.AggregateOpenRisk | live_trading/risk/aggregate_risk.py:535-547 | The sum over distinct tickets of the worst risk any row reports, with the ticket count, or the error of the first invalid row |
| AggregateRisk.SumValues | live_trading/risk/aggregate_risk.py:535-547 | Adding the map in insertion order gives the sum over its keys in any order |
| AggregateRisk.OpenRiskIgnoresOrderAndRepeats | live_trading/risk/aggregate_risk.py:535-547 | Permuting or repeating rows changes nothing, and any invalid row leaves no result |
| AggregateRisk.OpenRiskMonotone | live_trading/risk/aggregate_risk.py:535-547 | Adding rows never lowers exposure or ticket count |
| OrderSizing.SizeOrder | live_trading/risk/aggregate_risk.py:550-725 | In the fields of the request, for any computed quotient: the loss of the sized lot is within the per-trade percentage of the balance, with the open risk within the aggregate percentage, the published limits are those amounts, and every refusal has its cause in the order of the code |
| OrderSizing.SizingIsSizedFor | live_trading/risk/aggregate_risk.py:640-702 | Sizing in account money is sizing in request fields; with a division that never rounds down an order is sized exactly when the minimum lot is affordable, to the largest affordable grid lot |
| OrderSizing.SizeWithin | live_trading/risk/aggregate_risk.py:646-702 | Existing plus new risk stays within the aggregate limit; the published amounts are those of the chosen lot |
| OrderSizing.LotWithin | live_trading/risk/aggregate_risk.py:646-690 | The lot is on the broker grid and fits; it is the largest that fits, and is found whenever the minimum fits, for quotients not below the exact one |
| OrderSizing.StepDown | live_trading/risk/aggregate_risk.py:669-690 | The repair loop ends at the first fitting lot below its start, or at the minimum |
| OrderSizing.NormaliseLotFloors | live_trading/mt5/executor.py:35-63 | Refuses exactly lots below the minimum; otherwise the largest grid lot not above the lot and the maximum |
| OrderSizing.SizedLotIsSentUnchanged | live_trading/mt5/executor.py:35-63 | A sized lot reaches the broker unchanged |
| RiskRuns.AdmittedLotIsPositive | live_trading/risk/aggregate_risk.py:646-690 | Every admitted lot is positive |
| RiskRuns.ReportedRiskIsBookRisk | live_trading/risk/aggregate_risk.py:535-547 | Aggregating a complete report gives exactly the exposure of the open book and its ticket count |
| RiskRuns.EntryKeepsBound | live_trading/trading/live_loop.py:3657-3692 | An admitted entry leaves exposure within its own limit plus its slippage |
| RiskRuns.OtherEventsLowerRisk | live_trading/trading/live_loop.py:2491-2611 | A trailing step or a close never raises the exposure of tickets whose stops round in favour, and keeps them so |
| RiskRuns.RiskStaysBounded | live_trading/trading/live_loop.py:3657-3692 | Over every run of orders whose stop rounds in favour, exposure is at most the limit of the latest admission plus the slippage of that fill |
| RiskRuns.RiskWithinLimit | live_trading/trading/live_loop.py:3657-3692 | When moreover no order fills worse than sized, the limit itself is never exceeded |
| RiskRuns.RiskWithinLimitIff | live_trading/trading/live_loop.py:3657-3692 | The limit bounds every run if and only if fills carry no adverse slippage and every planned stop rounds in favour |
| RiskRuns.ExposureNeverGrowsIff | live_trading/mt5/executor.py:205-223 | No stream of quotes raises the exposure of one position if and only if its stop rounds in favour |
| RiskRuns.OrderStaysWithinLimitIff | live_trading/trading/live_loop.py:3657-3692 | Every run of one usable order, filled at its entry, stays within its limit if and only if its own stop rounds in favour |
| RiskRuns.AdverseFillExceeds | live_trading/trading/live_loop.py:3657-3692 | For every adverse slippage, a run over the limit at 2% per trade and in all |
| RiskRuns.BackwardRoundingExceeds | live_trading/mt5/executor.py:205-223 | Without slippage, breakeven at 2.004 moves a stop at 2.001 back to 2.00 and over the limit |
| Guardian.InitializeIsSound | live_trading/risk/guardian.py:103-123 | Initialisation from positive figures writes a record equal to the fields |
| Guardian.CheckKeepsSound | live_trading/risk/guardian.py:125-211 | Every check leaves the record equal to the fields and the baselines positive |
| Guardian.ResetKeepsSound | live_trading/risk/guardian.py:213-299 | So does every reset request, accepted or refused |
| Guardian.CleanCrashIsIdentity | live_trading/risk/guardian.py:306-426 | Crashing and restoring from an intact record changes nothing |
| Guardian.CrashesAreInvisible | live_trading/risk/guardian.py:306-426 | Deleting every crash from a run changes no later status, answer or state |
| Guardian.CrashesAreDropped | live_trading/risk/guardian.py:306-426 | A run without its crashes is its other operations in order |
| Guardian.HaltSurvivesCrashIff | live_trading/trading/live_loop.py:817-920 | A halt outlives a crash exactly when the record is at most 26 hours old and of this account |
| Guardian.CrashKeepsAllButLimits | live_trading/risk/guardian.py:306-426 | After any panel limit changes, a crash that finds its record loses at most the limits |
| Guardian.LimitChangeSurvivesCrashIff | live_trading/trading/live_loop.py:3221-3258 | A panel limit change survives a crash exactly when record or environment already hold it |
| Guardian.UnhaltedMeansInsideLimits | live_trading/risk/guardian.py:125-211 | An unhalted status certifies effective daily loss and drawdown inside their limits |
| Guardian.CheckHaltsIff | live_trading/risk/guardian.py:125-211 | A running guardian halts on a check exactly when the loss since the opening or reset balance, or the fall from the best equity, reaches its limit; for the daily loss exactly when that figure does; the status reports those figures |
| Guardian.NeverHaltedIff | live_trading/risk/guardian.py:125-211 | Over every run of checks, resets, limit changes and crashes that cost no limit, no check halts if and only if the figures of the account stay inside the limits throughout |
| Guardian.QuietCheckChangesNothing | live_trading/risk/guardian.py:125-211 | A check that rolls no day, raises no peak, expires no reset and reaches no limit changes and writes nothing |
| Guardian.UninitialisedCheckHalts | live_trading/risk/guardian.py:125-139 | Before initialisation every check reports a halt and changes nothing |
| Guardian.RestoreAcceptedIff | live_trading/risk/guardian.py:306-426 | A record is refused, without effect, exactly for another account or a figure that is not positive; an accepted one brings back halt, figures and the reset of the recorded day only |
| Guardian.ColdStart | live_trading/trading/live_loop.py:817-920 | Without a usable record a new process starts unhalted with the limits of its environment, running and on record exactly with a positive balance |
| Guardian.HaltStaysIff | live_trading/risk/guardian.py:213-299 | One operation, a limit change from the panel included, lifts a halt exactly as an accepted reset or, for daily loss, on a later day |
| Guardian.HaltLasts | live_trading/risk/guardian.py:445-475 | A drawdown halt lasts through every run without an accepted reset, limit changes and crashes that lose them included; a daily-loss halt also until a later UTC day |
| Guardian.RolloverForgivesTheDay | live_trading/risk/guardian.py:453-475 | The first check of a new day measures no daily loss |
| Guardian.NewDayLiftsDailyLossOnly | live_trading/risk/guardian.py:453-475 | A new UTC day lifts a daily-loss halt with its reason and time, drops the reset and leaves a drawdown halt alone |
| Guardian.AcceptedResetRebases | live_trading/risk/guardian.py:213-299 | An accepted reset clears the halt and rebases balance and peak |
| Guardian.ResetAcceptedIff | live_trading/risk/guardian.py:213-299 | A reset is accepted exactly while halted, with usable figures and a fresh id, unless the new day itself lifts the halt |
| Guardian.RebasedLasts | live_trading/risk/guardian.py:477-487 | The rebased figures survive every same-day run of checks, refused resets, limit changes and crashes |
| Guardian.ChecksAfterResetCountFromIt | live_trading/risk/guardian.py:141-166 | After it, whatever same-day checks, refused resets, limit changes and crashes come between, every same-day check reports profit since the reset and drawdown from the best equity since |
| Guardian.ReplaysAreRefused | live_trading/risk/guardian.py:213-299 | Replaying an answered request id on the same day never rebases again, halted or not, whatever limits change |
| Guardian.ReplayAcceptedIff | live_trading/risk/guardian.py:213-299 | While halted again, a replay is accepted exactly when its id is empty |
| Guardian.MidnightCheckForgetsTheReset | live_trading/risk/guardian.py:141-166 | A check whose clock readings straddle midnight counts the forgiven loss and can halt on it |
| Guardian.NoOrderWhileHalted | live_trading/trading/live_loop.py:1575-1608 | No sequence of bars, pauses, resumes, forced resumes, limit changes and restarts places an order through a halt |
| Guardian.PauseClosesTheGate | live_trading/trading/live_loop.py:3010-3033 | While paused no bar trades; a resume opens the gate exactly for an unhalted guardian, a forced resume always |
| Guardian.EveryBarTradesIff | live_trading/trading/live_loop.py:1575-1608 | From an open gate every bar of a sequence may place an order if and only if the figures stay inside the limits throughout |
| Guardian.FirstBarTradesIff | live_trading/trading/live_loop.py:1575-1608 | A bar that first has to initialise the guardian may trade exactly under limits above nothing |
| Guardian.RiskGuardian.constructor | live_trading/risk/guardian.py:76-101 | A new guardian is the cold start beside the record it found |
| Guardian.RiskGuardian.InitializeFrom | live_trading/risk/guardian.py:103-123 | The in-place form equals the initialisation function |
| Guardian.RiskGuardian.CheckAccount | live_trading/risk/guardian.py:125-211 | The in-place check, with its saves and early halts, equals the check function on fields and record |
| Guardian.RiskGuardian.Reset | live_trading/risk/guardian.py:213-299 | The in-place reset equals the reset function |
| Guardian.RiskGuardian.Restore | live_trading/risk/guardian.py:306-426 | The in-place restore equals the restore function |
| Guardian.RiskGuardian.MaybeDayReset | live_trading/risk/guardian.py:453-475 | The in-place day rollover equals its function |
| Guardian.RiskGuardian.TriggerHalt | live_trading/risk/guardian.py:445-451 | Tripping sets halt, reason and time and saves |
| Guardian.RiskGuardian.ActiveBaseline | live_trading/risk/guardian.py:477-487 | A baseline of another UTC day is dropped and saved |
| Guardian.RiskGuardian.SaveState | live_trading/risk/guardian.py:489-535 | The record becomes the current fields |
| Guardian.TradingLoop.OnNewBar | live_trading/trading/live_loop.py:1575-1608 | The gate opens only on an unhalted check inside both limits, and pauses the loop otherwise |
| Guardian.TradingLoop.ResumeCommand | live_trading/trading/live_loop.py:3021-3033 | Resume is refused while the guardian is halted |
| TrailingStop.RequestMovesInFavour | live_trading/risk/adaptive_trailing_stop.py:379-389 | Every stop sent, after cent rounding, is at least as protective as a live stop that rounds in favour, and rounds in favour itself |
| TrailingStop.StopOnlyRatchets | live_trading/trading/live_loop.py:2478-2611 | Through any quotes, accepted or refused, a stop that rounds in favour only moves in favour; entry and risk unit never change |
| TrailingStop.RatchetsIff | live_trading/mt5/executor.py:205-223 | The stop only ratchets over every stream of quotes if and only if it rounds in favour: the entry price, or past entry the next level, does not round to its losing side |
| TrailingStop.CentStopRoundsInFavour | live_trading/mt5/executor.py:205-223 | Every stop on the cent grid rounds in favour |
| TrailingStop.DistantStopRoundsInFavour | live_trading/mt5/executor.py:205-223 | Every stop, on any grid, at least half a cent short of a quoted entry rounds in favour |
| TrailingStop.BreakevenIsKept | live_trading/risk/adaptive_trailing_stop.py:321-349 | A stop at or beyond entry whose next level rounds to entry or beyond stays there |
| TrailingStop.BreakevenIsKeptIff | live_trading/risk/adaptive_trailing_stop.py:321-349 | It stays there over every stream of quotes if and only if that level does |
| TrailingStop.BreakevenReachedIff | live_trading/mt5/executor.py:205-223 | An accepted breakeven request reaches entry exactly when cent rounding does not push it to the losing side |
| TrailingStop.StopFollowsEveryLevel | live_trading/trading/live_loop.py:2478-2611 | With every request accepted, and from any stop, the final stop lags the level of no Chandelier tick by a full step, or only by half a cent; the level is the best price since entry, from the quotes alone, less the ATR band |
| TrailingStop.StopLagsLessThanStep | live_trading/trading/live_loop.py:2478-2611 | With a step above half a cent, by less than the step |
| TrailingStop.CandidateHangsFromBest | live_trading/risk/adaptive_trailing_stop.py:321-349 | The Chandelier candidate hangs from the best price since entry, the current quote included, and not from the current quote |
| TrailingStop.LevelOfQuotes | live_trading/risk/adaptive_trailing_stop.py:321-349 | On broker quotes that best price is the best quote of the run |
| TrailingStop.QuotesDecide | live_trading/risk/adaptive_trailing_stop.py:272-349 | After any stream of broker quotes stage and request of the next tick follow from the best quote so far, the live stop and the ATR alone |
| TrailingStop.BestQuoteIsBest | live_trading/trading/live_loop.py:2417-2443 | The best quote is a bid of a buy or an ask of a sell, or the start, and no quote is better |
| TrailingStop.RiskUnitPositiveIff | live_trading/risk/adaptive_trailing_stop.py:272-292 | Only a record with neither a usable initial stop nor a stored distance has no risk unit |
| TrailingStop.NewBaselineIsLatched | live_trading/trading/live_loop.py:2435-2470 | A new ticket's record starts unarmed at its entry with its own risk unit |
| TrailingStop.LatchedThroughout | live_trading/risk/adaptive_trailing_stop.py:272-349 | After any run the extreme is the best quote seen and breakeven is armed exactly when it reached one risk unit |
| TrailingStop.StagesOnlyAdvance | live_trading/risk/adaptive_trailing_stop.py:321-349 | With positive ATR the stages only advance, from every stop short of entry and every steady one beyond it |
| TrailingStop.StagesOnlyAdvanceIff | live_trading/risk/adaptive_trailing_stop.py:321-349 | They advance over every such stream if and only if the stop is steady |
| TrailingStop.StageFallsBackIff | live_trading/risk/adaptive_trailing_stop.py:321-349 | A ticket past breakeven is labelled waiting exactly on a tick without ATR |
| TrailingStop.ReloadIsTransparent | live_trading/trading/live_loop.py:3828-3874 | Saving and reloading a record continues every run unchanged |
| TrailingStop.OldRecordStartsAtEntry | live_trading/trading/live_loop.py:3828-3874 | A record without stored stop and extremes starts unarmed at its entry with its stored distance as risk unit |
| TrailingStop.UpdateEach | live_trading/trading/live_loop.py:2410-2470 | No ticket reads or writes another ticket's record |
| TrailingStop.FirstSeenTicket | live_trading/trading/live_loop.py:2410-2430 | A ticket without a record continues from its logged one, else starts with the distance to its live stop, else is skipped |
| TrailingStop.TrailManager.Poll | live_trading/trading/live_loop.py:2371-2611 | One poll advances each live ticket from its own record and drops records of absent tickets |
| PositionRepair.GroupRows | live_trading/mt5/connector.py:1311-1328 | Rows are filed under their ticket in input order, tickets in first-seen order |
| PositionRepair.SaneIff | live_trading/mt5/connector.py:1285-1292 | A row is sane exactly with positive lots, or else with a positive volume of at most a hundred |
| PositionRepair.ChooseRow | live_trading/mt5/connector.py:1328-1350 | Nothing is kept exactly of a lone, corrupt, unrepairable row; the first sane row wins whenever there is one; only a lone corrupt row with a usable log record is rewritten |
| PositionRepair.ChoiceMeans | live_trading/mt5/connector.py:1328-1350 | The same of the specified choice, with the logged volume and side in a rewritten row |
| PositionRepair.DedupePositions | live_trading/mt5/connector.py:1311-1350 | Both passes together yield the kept rows and dropped names of every ticket in order |
| PositionRepair.FirstSaneIs | live_trading/mt5/connector.py:1340-1350 | A duplicated ticket keeps the first of its sane rows, if it has any |
| PositionRepair.OrderIsFirstSeen | live_trading/mt5/connector.py:1311-1328 | Tickets are listed by the position of their first row |
| PositionRepair.DedupePartitionsTickets | live_trading/mt5/connector.py:1311-1350 | Each distinct ticket ends as one output row or one dropped name; only a lone corrupt row with a usable log record is rewritten |
| PositionRepair.LooksFlatIff | live_trading/mt5/connector.py:1311-1350 | No rows and no drops exactly when the report held no position row |
| PositionRepair.SecondPassIsIdentityIff | live_trading/mt5/connector.py:1311-1350 | A second pass changes nothing exactly when every duplicated ticket has a sane row |
| PriceRebase.RequiredCoversLevels | live_trading/trading/live_loop.py:323-389 | The required distances exist exactly when the broker reports a level, and cover every level of their side |
| PriceRebase.RequiredIsReported | live_trading/trading/live_loop.py:340-376 | Each distance is one of the levels of its side, or the level of the other side when its own has none |
| PriceRebase.RebasedOrderIsProtective | live_trading/trading/live_loop.py:392-467 | Rebased stops and targets clear both minimums by half a point and lie outside the whole quote; each is positive exactly when its distance leaves room below the quote |
| PriceRebase.RebasedDistancesAreTight | live_trading/trading/live_loop.py:392-467 | On any grid stop and target stand at the larger of planned distance and minimum plus one point, to within half a grid unit, on their sides of the quote |
| PriceRebase.BadInputIsRefused | live_trading/trading/live_loop.py:392-467 | Unusable quotes, points and plans, and distances rounded away, are refused |
| PriceRebase.RebasedStopIsUsableIff | live_trading/risk/aggregate_risk.py:475-493 | Sizing accepts the rebased stop exactly when a buy leaves that room |
| PriceRebase.RebasedStopRatchets | live_trading/trading/live_loop.py:392-467 | A rebased stop at least half a cent from the quote can only be trailed in favour, on any broker grid |
| PriceRebase.ClearanceIff | live_trading/trading/live_loop.py:392-467 | The half-point clearance holds on every grid quote exactly when the grid is no coarser than the point |
| StructureBreaks.DetectSwingHighs | live_trading/signals/smc_engine.py:268-279 | Exactly the bars strictly highest in their window, in increasing order |
| StructureBreaks.DetectSwingLows | live_trading/signals/smc_engine.py:282-293 | Exactly the bars strictly lowest in their window, in increasing order |
| StructureBreaks.SwingsStandApart | live_trading/signals/smc_engine.py:268-293 | Swings of one kind are more than the lookback apart |
| StructureBreaks.NewestUnbroken | live_trading/signals/smc_engine.py:315-329 | The latest unused swing before the bar |
| StructureBreaks.TryBreak | live_trading/signals/smc_engine.py:336-370 | One direction's block fires and reports exactly as the automaton step does |
| StructureBreaks.DetectBosAndChoch | live_trading/signals/smc_engine.py:298-376 | The loop returns the cut event lists and trend of the automaton |
| StructureBreaks.EveryEventIsLawful | live_trading/signals/smc_engine.py:298-376 | Every event breaks the newest intact swing at an earlier bar by distance and body, and is a CHoCH exactly when the two events before it are opposite BOS; the trend is that of the last two BOS |
| StructureBreaks.OneEventPerBar | live_trading/signals/smc_engine.py:330-370 | Events come in strictly increasing bar order and no swing is consumed twice |
| StructureBreaks.EveryBreakIsReported | live_trading/signals/smc_engine.py:330-370 | A bar carries a bullish event exactly when it breaks the newest intact high, a bearish one exactly when it breaks the newest intact low and is not bullish |
| StructureBreaks.EventsInPrices | live_trading/signals/smc_engine.py:330-370 | Every event reports the price of its swing and closes the minimum distance beyond it, upward or downward, with the asked body; the trend is that of two last BOS |
| StructureBreaks.BreaksInPricesAreReported | live_trading/signals/smc_engine.py:330-370 | A bar carries an event exactly when its close clears the price of the newest intact swing by distance and body, upward before downward |
| StructureBreaks.BreaksFollowConfirmation | live_trading/signals/smc_engine.py:268-376 | On consistent candles a swing is only broken after its right-hand window has closed |
| StructureBreaks.NewestEventIsLast | live_trading/signals/smc_engine.py:176-186 | The newest event read off the cut lists is the last of the stream, and the tie rule never decides |
| DirectionalMovement.Movements | live_trading/signals/market_regime.py:95-103 | The three movement series are those of every candle and its predecessor |
| DirectionalMovement.RegimeSmoothing | live_trading/signals/market_regime.py:104-116 | The regime engine's loop yields the DX series and latest indices of the Wilder sums |
| DirectionalMovement.TrendSmoothing | live_trading/signals/trend_engine.py:90-104 | The trend engine's loop yields the same DX series from its sums |
| DirectionalMovement.CalcAdxDetails | live_trading/signals/market_regime.py:88-123 | The regime engine's ADX is the specified one, with its direction and unrounded indices |
| DirectionalMovement.CalcDmi | live_trading/signals/trend_engine.py:71-109 | The trend engine's ADX is the same on every input; its indices are rounded, and zero up to twice the period |
| DirectionalMovement.DirectionalIndicesBounded | live_trading/signals/market_regime.py:104-116 | Both indices are nonnegative on any candles and together at most 100 on consistent ones |
| DirectionalMovement.AdxIsPercentage | live_trading/signals/market_regime.py:117-123 | ADX lies in [0, 100] on every input |
| DirectionalMovement.MeanIsOfNewest | live_trading/signals/market_regime.py:117-123 | The averaged value lies between any bounds of the newest period of DX values, whatever the older ones are |
| DirectionalMovement.MeanRolls | live_trading/signals/market_regime.py:117-123 | A new DX value moves the average by its difference to the one that leaves the window, shared over the period |
| DirectionalMovement.NewestValueEnters | live_trading/signals/market_regime.py:104-116 | In a smoothed sum a new value enters whole and the rest keeps all but one share of the period |
| DirectionalMovement.SteadyIndex | live_trading/signals/market_regime.py:101-116 | With one movement in one true range on every candle the smoothed index is their ratio in percent |
| DirectionalMovement.OneWayMarketIsFullTrend | live_trading/signals/market_regime.py:88-123 | A climbing market has only +DI and a sinking one only -DI, and either an ADX of 100 |
| DirectionalMovement.FlatMarketHasNoTrend | live_trading/signals/market_regime.py:88-123 | A market that never leaves one range has an ADX of 0 |
| DirectionalMovement.MirrorSwapsIndices | live_trading/signals/trend_engine.py:71-109 | Reflecting prices swaps the two indices and leaves ADX alone |
| PriceAction.DetectInsideBarBreakout | live_trading/signals/price_action_engine.py:212-276 | The backward walk finds the outermost mother and the breakout through it |
| PriceAction.InsideBreakoutIff | live_trading/signals/price_action_engine.py:212-276 | A structure is detected exactly with a nested candle before the last, its depth counts the nested candles, and it breaks out exactly when the last candle drives through the outermost mother; level and strength are its broken price and body in ATRs |
| PriceAction.InsideBreakoutClearsAll | live_trading/signals/price_action_engine.py:215-222 | An inside-bar breakout closes beyond every candle of the nested structure |
| PriceAction.ScanResistances | live_trading/signals/price_action_engine.py:293-302 | Fresh and failed breaks upward: some level is broken, some level is given back |
| PriceAction.ScanSupports | live_trading/signals/price_action_engine.py:304-313 | The same downward |
| PriceAction.DetectBreakoutPullback | live_trading/signals/price_action_engine.py:279-399 | All breakout, fake, pullback and inside-bar flags |
| PriceAction.ComputePaSignal | live_trading/signals/price_action_engine.py:402-468 | A side is signalled exactly when it outweighs the other, with a trigger and a score of at least 1; the published score is the dominant share, at most 1 |
| PriceAction.FloorNeverDecides | live_trading/signals/price_action_engine.py:452-468 | The published-score floor changes nothing in that decision |
| PriceAction.EngulfingMeans | live_trading/signals/price_action_engine.py:103-142 | A bullish engulfing rises through the whole body of a falling candle, a bearish one falls through a rising one, with the asked body |
| PriceAction.PinMeans | live_trading/signals/price_action_engine.py:103-142 | A bullish pin has the asked lower wick and its body in the upper half of the range, a bearish one the opposite |
| PriceAction.StrongMeans | live_trading/signals/price_action_engine.py:103-142 | A strong candle closes in its own direction in the outer fifth of its range |
| PriceAction.BreakoutMeans | live_trading/signals/price_action_engine.py:293-313 | A fresh breakout closes above a resistance the last close was not above, a breakdown below a support, on a driving candle |
| PriceAction.FakeoutMeans | live_trading/signals/price_action_engine.py:293-313 | A failed breakout is a resistance closed above in the three candles before and given back, a failed breakdown a support |
| PriceAction.PullbackMeans | live_trading/signals/price_action_engine.py:315-379 | A bullish pullback has climbed over ten candles and rises off a support or out of a demand zone just retested, a bearish one the opposite |
| PriceAction.NearMeans | live_trading/signals/price_action_engine.py:505-568 | Nearness of supports and demand speaks for a buy, of resistances and supply for a sell, within the tolerance of the candle |
| PriceAction.PatternWeights | live_trading/signals/price_action_engine.py:402-450 | Engulfing adds 1.5 and a strong candle 1 to its side |
| PriceAction.PinWeights | live_trading/signals/price_action_engine.py:402-450 | A pin adds 0.8, near a level 1.5; nearness adds 0.5 and that difference |
| PriceAction.BreakoutWeights | live_trading/signals/price_action_engine.py:402-450 | A fresh breakout adds 1 and a pullback 0.8 |
| PriceAction.InsideAndFakeWeights | live_trading/signals/price_action_engine.py:402-450 | An inside-bar breakout adds 1.2, a failed breakout takes 1.5 away down to zero, and nothing scores nothing |
| PriceAction.SignalFollowsCandle | live_trading/signals/price_action_engine.py:402-468 | Whatever the levels, a BUY needs a rising candle or a bullish pin near support or demand, a SELL the opposite |
| PriceAction.BareSignalIff | live_trading/signals/price_action_engine.py:402-468 | Without levels the signal is exactly the direction in which the last candle engulfs or leaves an inside structure |
| PriceAction.MirrorSwapsPatterns | live_trading/signals/price_action_engine.py:103-142 | Reflection swaps every bullish and bearish pattern |
| PriceAction.MirrorSwapsInside | live_trading/signals/price_action_engine.py:212-276 | Reflection swaps the inside-bar flags, reflects the level and keeps depth and strength |
| PriceAction.MirrorSwapsBreakouts | live_trading/signals/price_action_engine.py:279-399 | Reflection with swapped levels and zones swaps breakout, fake and pullback flags |
| PriceAction.MirrorFlipsSignal | live_trading/signals/price_action_engine.py:505-568 | Reflection flips the whole signal and keeps its score |
| SmartStop.EnvelopeOf | live_trading/risk/capital_manager.py:97-115 | The clamped multipliers give a floor of at least 0.75 ATR and a ceiling of at most 3.5 ATR |
| SmartStop.EnvelopeFollowsCaller | live_trading/risk/capital_manager.py:97-115 | Floor, ceiling and buffer are the multiples the caller asked for, moved no further than into the allowed band |
| SmartStop.PlanInPrices | live_trading/risk/capital_manager.py:97-166 | The stop stands the buffer beyond the nearest block bottom, swing low or support of a buy, or their counterparts of a sell, at least the floor away; it is refused beyond the ceiling, and is the ceiling when there is no such level |
| SmartStop.AcceptedStopIsBounded | live_trading/risk/capital_manager.py:117-166 | A plan is refused exactly when its nearest level lies outside the envelope; an accepted stop keeps the buffer beyond that level, the floor and the ceiling, to the cent |
| SmartStop.FloorIsNearest | live_trading/risk/capital_manager.py:147-166 | No plan puts the rounded stop nearer to the entry than the rounded noise floor |
| SmartStop.StopNeverPassesEntry | live_trading/risk/capital_manager.py:153-166 | From an entry on the cent grid, or with a noise floor of at least half a cent, no stop is on the winning side |
| SmartStop.StopNeverPassesEntryIff | live_trading/risk/capital_manager.py:97-166 | With given limits no plan puts the stop beyond the entry if and only if the stop at the noise floor does not round beyond it or, for a buffer at least as wide as the floor, neither do the stop at the ceiling and those just beyond the buffer |
| SmartStop.OffGridStopPassesEntry | live_trading/risk/capital_manager.py:153-166 | An off-grid entry with an ATR of 0.0003 is such a case |
| SmartStop.MirrorExact | live_trading/risk/capital_manager.py:97-166 | Before rounding, the plan of the mirrored order is the mirrored plan |
| SmartStop.MirrorPlan | live_trading/risk/capital_manager.py:97-166 | Rounded too, when the centre is an even number of cents and every level stays positive |
| SmartStop.Round2MirrorsIff | live_trading/risk/capital_manager.py:70-70 | Cent rounding commutes with reflection for all prices exactly about an even number of cents |
| PullbackBacktest.TryExit | robot/src/comparativeBacktest.ts:165-178 | The exit price of one bar, the stop before the target |
| PullbackBacktest.RunBar | robot/src/comparativeBacktest.ts:165-305 | One pass of the loop body is one step of the machine |
| PullbackBacktest.RunPullbackBacktest | robot/src/comparativeBacktest.ts:142-308 | The loop returns the trades, balance and drawdown of the step machine |
| PullbackBacktest.NeverPendingAndInTrade | robot/src/comparativeBacktest.ts:159-305 | A pending signal and a trade never coexist; the balance is the exact sum so far |
| PullbackBacktest.EveryTradeIsLawful | robot/src/comparativeBacktest.ts:165-262 | Each trade answers a decision on the exact balance, opens on the first of the next five bars to fill it, and closes on the first later bar to touch a level |
| PullbackBacktest.EveryTradeInPrices | robot/src/comparativeBacktest.ts:165-262 | Every trade in prices: its opening bar came back to block, gap or average, stop and target stand one and two planned distances away, no bar in between reached either, and the closing bar decides the stop first |
| PullbackBacktest.TradesNeverOverlap | robot/src/comparativeBacktest.ts:165-305 | Each trade is signalled only after the one before has closed |
| PullbackBacktest.RewardIsFixed | robot/src/comparativeBacktest.ts:102-190 | Each trade earns exactly -1 or +2 risk units, and -1 exactly when its closing bar touched the stop |
| PullbackBacktest.AccountsAreExact | robot/src/comparativeBacktest.ts:179-187 | Balance is initial plus unrounded profits, and the drawdown is the maximum over all closes |
| PullbackBacktest.PeakIsHighest | robot/src/comparativeBacktest.ts:181-183 | The running peak is the highest balance reached and is reached |
| PullbackBacktest.DrawdownIsWorstFall | robot/src/comparativeBacktest.ts:181-185 | The reported drawdown is the worst fall, in percent, from any positive balance to a later one |
| PullbackBacktest.ToFixed2IsNearest | robot/src/comparativeBacktest.ts:186-190 | The profit on record is the exact one to the nearest cent |
| PullbackBacktest.UnfilledSignalExpires | robot/src/comparativeBacktest.ts:196-203 | A signal no bar fills leaves the loop as it was before it |
| PullbackBacktest.FirstFillOpens | robot/src/comparativeBacktest.ts:204-262 | The first of five bars to fill a signal opens exactly its trade |
| PullbackBacktest.HeldWhileUntouched | robot/src/comparativeBacktest.ts:165-195 | A trade is held while neither level is touched |
| PullbackBacktest.PullbackPriceMeans | robot/src/comparativeBacktest.ts:204-252 | A price is found exactly when the bar came back to block, gap or average, and is its close held inside the far side of the zone entered |
| PullbackBacktest.FillsIff | robot/src/comparativeBacktest.ts:204-252 | A bar fills exactly when it came back and the price found is positive |
| PullbackBacktest.FillWasTradedIff | robot/src/comparativeBacktest.ts:211-252 | The fill price was traded on its bar unless the bar lies wholly beyond the zone it is said to touch |
| PullbackBacktest.FillOutsideBar | robot/src/comparativeBacktest.ts:211-252 | A bar between 99.8 and 99.9 that is filled at 100 |

## Left out

- Floating-point bit behaviour: money and prices are exact reals, with every explicit rounding of the code kept; sizing is proved for any computed quotient instead.
- Reported sizing figures: their final rounding to eight decimals is display only and not part of this model.
- Redis client management, cooldowns and file formats: the guardian has one saved record and the claims one key store; writes to the guardian record are taken to succeed.
- Broker fills in transit: a filled order is open at once in `EntryProtocol`; a request whose reply is lost is still counted as sent.
- Symbol specification changes during a run: `RiskRuns` keeps one specification, and only the modelled engine opens positions.
- Ticket keys that are neither a number, a text nor absent, and equal numbers of different types: not distinguished by the report's reader.
- Digests and timestamps: signal digests and ISO spellings are taken as injective, and a newline at the end of a broker comment is not considered.
- Exhaustion telemetry, ATR of the trailing stop and its momentum helpers: the ATR of a tick is an arbitrary input.
- Finding support, resistance, demand and supply levels in price action: the levels are inputs, because clustering runs from the lowest price upward and is not mirror symmetric; breakout-extension telemetry is omitted.
- Order blocks, fair value gaps, sweeps and the SMC score: flat scans and weights over the events modelled here.
- Smart-stop directions other than BUY and SELL, and the reason texts of a plan.
- The choice of the first matching order block and gap in the backtest, and the yearly statistics built from its trades: the decision engine is any function of bar and balance that may return zones.
- The decision engine, confidence weights, sessions, news and dollar-index filters: arbitrary answers wherever they matter.
- Telegram panel, HTTP, reconnect loops, supervisors, logging: no logic that the properties above depend on; a forced resume is an arbitrary step of the entry gate.
- EntryProtocol.AtMostOneRequest: does not bound the check-to-claim delay or the lead of candle stamps themselves, because the code sets no deadline and refuses only old candles; the exact margin is a hypothesis and `EntryProtocol.AtMostOneRequestIff` shows it is the right one.
- SmartStop.StopNeverPassesEntryIff: for positive entries only, as prices are; `SmartStop.FloorIsNearest` holds for every entry.
- SmartStop.MirrorPlan: needs an even-cent centre, because half-even rounding breaks ties toward even cents; `SmartStop.MirrorExact` holds for every centre.
