# SPY defined-risk options engine: model and proofs

This project models the decision core of an options engine that trades only structures with a bounded
loss, and proves what that core promises. Money, prices, probabilities and instants are real numbers;
contracts are integers. Code that computes a value is a function; code that changes state in place is a
class or a method with loops, proved equal to a function, and the properties are proved about that
function for every input or every run.

## The parts

**Structures and payoff** (`Options`, `Payoff`, `SignChanges`, `Breakevens`, `Coverage`, `Generators`,
`Families`, `Shapes`).
A structure is a list of signed legs over strikes and expirations. The finitely many kinks of its payoff
decide the whole half-line of spots, and the finitely many expirations every later instant, so the
recorded maximum loss bounds every settlement or liquidation at one spot and is reached. The suffix rule
is exactly the existence of a pairing of shorts with longer-lived longs. The 21 generators yield exactly
the quotable structures of each family; every one obeys the rule and pays at expiration what its name says.

**The trading machine** (`Market`, `Costs`, `Positions`, `Broker`, `Risk`, `Verdicts`, `Trading`, `Totals`,
`Invariants`, `Runs`, `Openings`, `Closings`, `Pipeline`). A desk is the broker's book, the portfolio, the
session record and the kill switches. A cycle manages exits, judges a candidate and executes it; quotes, fills,
forecasts and candidates are arbitrary. One invariant is kept by every step: the two books match, orders
and fills add up, equity is accounted for to the cent, the session counters replay the log, and exposure
stays within bounds stated exactly. The classes are proved to do exactly what these functions say.

**Durability and supervision** (`StateStore`, `Supervision`). A life is a history of events and restarts,
each restart from any earlier save. The invariant holds in every state of every life, and latched switches
survive. A supervised history is a run of the desk.

**Calendar** (`Calendar`). Easter, the holiday rules, sessions and decision times over unbounded years.

**Algorithms against a specification** (`HiddenStates`, `Exits`, `Density`, `WalkForward`). The belief
filter against the sum over all hidden histories, the whole-array exit simulation against a walk, quantile
inversion and the density field, and purged walk-forward splits.

`Vectors` holds the arithmetic of sums and dot products.

## Where the code differs from its description

- The comment on the risk budget calls it generous. It is, exactly up to a liquidity score of 0.8; above
  that it can discard a candidate that sizing would accept (`Risk.BudgetIsGenerousExactlyWhen`,
  `Risk.BudgetDropsASizable`).
- Repricing is described as conceding. A credit limit moves further from the market instead: repricing
  helps exactly when the limit is no credit and the price lies within the concessions left
  (`Broker.LoopCanFillExactlyWhen`, `Broker.LostCreditNeverFills`).
- A fill is described as limited by displayed size. The least size shown on any leg is divided by the largest
  leg, so a ratio structure can fill less than its legs show (`Broker.FillsLegByLegExactlyWhen`,
  `Broker.BackspreadFillsNothing`).
- The zero branch of the confidence factor is called unreachable behind the confidence veto. It is reached
  exactly at the floor, which the veto admits (`Verdicts.ConfidenceChecksAgreeExactlyWhen`,
  `Verdicts.FloorIsNeverTraded`).
- The opening limit is described as allowing a tick per leg either way. For a credit it asks for a tick per
  leg more than the estimate, which is what the broker would pay, so no generated credit opens on its
  decision snapshot (`Openings.GeneratedOpensExactlyWhen`, `Openings.CreditOneTickShort`).
- A close books its final limit, not its fill, for the whole position even when only part of it filled
  (`Closings.BookedIsCashExactlyWhen`, `Closings.HalfCloseBooksTwice`). The entry commission leaves equity
  at the fill and again inside the realised result (`Runs.EquityIsAccountedFor`).
- Positions are said to be restored with their stops. The credit multiple of a stop is not stored
  (`StateStore.StopSurvivesExactlyWhen`, `StateStore.CreditStopMoves`).
- A degenerate stored belief is reported as reset to uniform. The current belief is kept, which is uniform
  only in a process that has not updated it (`StateStore.RestoredBeliefIs`, `StateStore.DegenerateBeliefStays`).
- No transition is said to have probability zero. That holds exactly when neighbours get a positive share
  and leave something for the other states (`HiddenStates.BuiltIsPositiveExactlyWhen`).
- Every density column is said to sum to one, and inversion to return 0 or 1 far out. A column sums to one
  exactly when the axis overlaps the grid, and inversion saturates at the outer quantiles
  (`Density.ColumnSumsToOneExactlyWhen`, `Density.ReadIsMonotone`, `Density.ColumnMissesTheAxis`).
- The breakeven scan stops at the far bound and can miss a breakeven beyond it
  (`Breakevens.ScanMissesExactlyWhen`, `Breakevens.MissedBreakeven`).
- The risk engine is said to run every check. Per-trade limits are reported exactly when the maximum loss is
  finite and positive (`Risk.LimitIsReportedExactlyWhen`, `Risk.LegLimitIsSkipped`).
- The same-expiration limit counts every leg, but is checked for one contract at the candidate's nearest
  expiration and is not a cap of sizing. What sizing buys stays within it at every expiration exactly when
  nothing passes, nothing can be bought, or each has room for the tightest cap or for as many contracts as may
  be bought at the greatest loss that passes (`Risk.SameExpirationHoldsExactlyWhen`,
  `Risk.SameExpirationOverrun`, `Risk.LaterExpirationOverrun`). Over any run the excess is bounded but for later legs (`Runs.SameExpirationIsCapped`).
- The simulation closes at the assignment cutoff whatever the spot; the live manager waits for a short leg
  near the money (`Exits.LiveExitIsSimulatedExactlyWhen`, `Exits.CutoffExitsOnlyInSimulation`).
- A crash is said to cost one cycle at worst. A failed cycle is not saved, so it costs every cycle that failed
  since the last completed one (`Supervision.CrashLosesFailedCycles`, `Supervision.FailedCycleForgets`).
- The embargo never drops a training observation, because a training range ends before its test window
  (`WalkForward.PurgeIsExact`).

## Model

| member | source | states |
|---|---|---|
| Options.Strikes | spy_der/domain/strategy.py:203-205 | the strikes of a leg list, each once, strictly increasing |
| Options.Expiries | spy_der/domain/strategy.py:191-193 | the expirations of a leg list, each once, strictly increasing |
| Options.ExpiryRange | spy_der/domain/strategy.py:195-201 | every leg expires between the near and the far expiry |
| Payoff.EvaluationSpots | spy_der/strategies/payoff.py:136-140 | the evaluation grid is zero and the strikes in increasing order, then the far bound |
| Payoff.DefaultBoundIsFar | spy_der/strategies/payoff.py:136-140 | the default far bound lies beyond the last strike by 100 points or the strike itself, whichever is more |
| Payoff.WorstCheckpoint | spy_der/strategies/payoff.py:153-160 | the double scan returns the first least conservative payoff over expirations and spots |
| Payoff.BestTerminal | spy_der/strategies/payoff.py:175-176 | the scan returns the greatest terminal payoff over the spots |
| Payoff.ComputeProfile | spy_der/strategies/payoff.py:143-191 | the profile holds the slopes, the net entry cost, the loss side (infinite exactly on a negative upside slope, otherwise the first grid minimum) and the profit side |
| Payoff.TailSlope | spy_der/strategies/payoff.py:115-133 | beyond the last strike every payoff is a line with the upside slope |
| Payoff.DownsideIsTheSlope | spy_der/strategies/payoff.py:115-133 | up to the lowest strike the terminal payoff is a line with the reported downside slope |
| Payoff.PayoffOnSegment | spy_der/strategies/payoff.py:92-107 | between neighbouring strikes every payoff, terminal or conservative, is one straight line |
| Payoff.KnotsDecideMinimum | spy_der/strategies/payoff.py:136-164 | a lower bound on zero and the strikes is a lower bound for every spot of the half-line, for any non-negative upside slope |
| Payoff.KnotsDecideMaximum | spy_der/strategies/payoff.py:136-176 | an upper bound on the kinks is an upper bound everywhere when the tail does not rise |
| Payoff.ConservativeIsALowerBound | spy_der/strategies/payoff.py:76-107 | closing at any arbitrage-free marks makes at least the conservative payoff |
| Payoff.LatestCheckpoint | spy_der/strategies/payoff.py:92-107 | any instant from the first expiry on is valued like the latest expiry it has passed, so finitely many checkpoints decide |
| Payoff.MaxLossIsABound | spy_der/strategies/payoff.py:143-191 | for every spot, every instant from the near expiry on and every valuation of live legs between intrinsic and the cap, P&L is at least minus the recorded maximum loss |
| Payoff.MaxLossIsReached | spy_der/strategies/payoff.py:153-191 | for any far bound at or above zero a positive maximum loss is attained at the recorded worst-case spot and expiry by admissible marks |
| Payoff.LossIsUnboundedExactlyWhenReported | spy_der/strategies/payoff.py:162-164 | a structure can lose more than any amount if and only if the profile reports an infinite loss |
| Payoff.MaxProfitIsExact | spy_der/strategies/payoff.py:166-177 | for any far bound at or above zero a single-expiry structure reaches a profit at some spot if and only if it is at most the recorded maximum profit |
| SignChanges.ScanSignChanges | spy_der/strategies/payoff.py:207-237 | the segment scan with sorting and de-duplication lists exactly the sign boundaries strictly inside the scanned range |
| SignChanges.FoundIsExact | spy_der/strategies/payoff.py:219-231 | what the scan appends for one segment is exactly the boundary it contributes: its crossing, or its left kink when the signs around it differ |
| SignChanges.NoOppositeSignsBetweenBoundaries | spy_der/strategies/payoff.py:194-237 | without a boundary strictly between two points the values there are never strictly opposite |
| SignChanges.TailBoundaryExists | spy_der/strategies/payoff.py:136-140 | a straight tail holds a further boundary exactly when the value at its start lacks the sign it is heading for |
| Breakevens.ComputeBreakevens | spy_der/strategies/payoff.py:194-237 | for any far bound beyond the last strike, and always for the default one, the result is strictly increasing and lists exactly the sign boundaries of the terminal payoff in (0, far bound) |
| Breakevens.BreakevenIsZero | spy_der/strategies/payoff.py:194-237 | every breakeven is a zero of the terminal payoff |
| Breakevens.OneSignBetweenBreakevens | spy_der/strategies/payoff.py:194-237 | between consecutive entries of zero, the breakevens and the far bound the payoff never takes both strict signs |
| Breakevens.ScanMissesExactlyWhen | spy_der/strategies/payoff.py:204-237 | the scan misses a breakeven if and only if the payoff at the far bound does not yet have the sign of its tail |
| Breakevens.MissedBreakeven | spy_der/strategies/payoff.py:204-237 | an instance: a straddle whose only breakeven lies beyond the far bound and is not returned |
| Coverage.CoverageViolations | spy_der/strategies/validation.py:69-83 | one problem for exactly each listed expiry of a right whose suffix sum is negative; none exactly when no suffix at any instant is short |
| Coverage.NextListedExpiry | spy_der/strategies/validation.py:69-83 | the suffix sum at any instant equals the one at the next listed expiry |
| Coverage.DuplicateLegKeys | spy_der/strategies/validation.py:111-118 | the keys carried by more than one leg; none exactly when all legs differ |
| Coverage.ValidateDefinedRisk | spy_der/strategies/validation.py:86-148 | no violation if and only if the structure is admissible with a finite maximum loss of at least the minimum; a covered structure never triggers the payoff cross-check |
| Coverage.CoverageIsAPairing | spy_der/strategies/validation.py:69-83 | the rule is clean if and only if for each right every short contract has its own long contract of that right expiring no earlier |
| Coverage.CoverageAtEveryInstant | spy_der/strategies/validation.py:69-83 | the rule is clean if and only if at every instant live shorts do not exceed live longs of either right |
| Coverage.BuildPairing | spy_der/strategies/validation.py:69-83 | a pairing exists whenever no suffix of the short expiries outnumbers the long ones |
| Coverage.CoverageBoundsTheSlope | spy_der/strategies/validation.py:137-143 | a covered structure has a non-negative upside slope, so the cross-check cannot contradict the rule |
| Coverage.AdmittedLossIsDefined | spy_der/strategies/validation.py:121-148 | a covered structure has a finite maximum loss that no single-spot settlement or liquidation exceeds |
| Generators.Context.QuotedOnBoth | spy_der/strategies/generators/context.py:61-74 | the strikes quoted on both rights at the near expiration, strictly increasing |
| Generators.StrikesAreQuotedOnBoth | spy_der/strategies/generators/context.py:61-82 | the strikes are exactly those quoted at the near expiration as a call and as a put; with fewer than two the strike step is one |
| Generators.StrikeStepIsNarrowest | spy_der/strategies/generators/context.py:76-82 | with two listed strikes or more the strike step is the gap of two neighbours, and no neighbours are closer |
| Generators.SnapIsNearest | spy_der/strategies/generators/context.py:93-95 | snapping returns the nearest listed strike, the lower of two equally near |
| Generators.Context.MakeLeg | spy_der/strategies/generators/context.py:112-137 | a built leg has exactly the requested strike, right, quantity and expiry |
| Generators.MakeLegExactlyWhen | spy_der/strategies/generators/context.py:112-137 | a leg is built if and only if its quantity is not zero and the last quote of its contract has a positive midpoint and is not crossed; it takes that quote's execution price and volatility |
| Generators.ExecutionPriceIsInside | spy_der/strategies/generators/context.py:155-160 | for an aggressiveness from zero to one the execution price lies between the midpoint and the touch, or is the one-cent floor |
| Generators.MakeLegsIsAllOrNothing | spy_der/strategies/generators/context.py:139-152 | a list of legs is built if and only if each of them is, and then holds exactly those, in order |
| Generators.SoundSpecsAreAdmissible | spy_der/strategies/validation.py:69-118 | four or fewer distinct specifications with non-negative suffixes give an admissible structure |
| Generators.Generate | spy_der/strategies/generators/families.py:43-442 | every structure any of the 21 generators yields carries its family and is admissible: covered, no duplicate legs, at most six legs, several expirations only in a calendarized family; which structures those are is `Families.GeneratedExactlyWhen` |
| Generators.GeneratedLossIsFinite | spy_der/strategies/generators/families.py:43-442 | every generated structure has a finite maximum loss |
| Families.GeneratedExactlyWhen | spy_der/strategies/generators/families.py:43-442 | for each of the 21 families the generator yields a structure if and only if it carries the family and its legs are those the family offers at strikes near the money, the pin, the median or the finish probabilities, each with a usable quote |
| Shapes.ShapeOfFamily | spy_der/strategies/generators/families.py:43-442 | the exact terminal payoff of every generated structure, kink by kink: where it is level, rises or falls by a contract per point, with the kinks at the family's strikes |
| Shapes.FamilyPaysAsNamed | spy_der/strategies/generators/families.py:43-442 | bull structures never fall in the spot and rise somewhere, bear ones the reverse, and credits are best at the current spot; butterflies are greatest at the centre alone, condors exactly between their shorts, with equal ends unless a wing is broken; straddles and strangles are least between their strikes and, like call backspreads, rise without bound; put backspreads gain by falling below their long strike; calendars leave their cost |
| Shapes.FamilyIsDated | spy_der/strategies/generators/families.py:318-407 | calendars and diagonals are long the far expiration and short the near one; every other structure has the one expiration |
| Shapes.PutBackspreadProfitsExactlyWhen | spy_der/strategies/generators/families.py:303-314 | a fall brings a put backspread into profit if and only if twice its long strike less its short strike is worth more than was paid |
| Shapes.BackspreadThatNeverGains | spy_der/strategies/generators/families.py:303-314 | an instance: a generated put backspread that no fall brings into profit |
| Calendar.YearIsUnique | spy_der/runtime/calendar.py:144-145 | a day lies in exactly one year of the day count |
| Calendar.EasterIsASunday | spy_der/runtime/calendar.py:32-48 | for every year the computed Easter is a Sunday between 22 March and 25 April |
| Calendar.MoonIsTheEpacts | spy_der/runtime/calendar.py:32-48 | for every year the golden number and century terms of the computation place the full moon of the Gregorian epact, (53 - epact) % 30 days after 21 March, less the one-day late correction |
| Calendar.EasterFollowsTheFullMoon | spy_der/runtime/calendar.py:32-48 | the computed Easter is the first Sunday strictly after the full moon of the Gregorian epact |
| Calendar.GoodFridayIsAFriday | spy_der/runtime/calendar.py:105-105 | two days before Easter is a Friday in every year |
| Calendar.NthWeekday | spy_der/runtime/calendar.py:51-55 | the result has the weekday and lies in the n-th week of the month |
| Calendar.LastWeekday | spy_der/runtime/calendar.py:58-62 | the result has the weekday and is within the last seven days of the month |
| Calendar.Observed | spy_der/runtime/calendar.py:65-79 | none exactly for a Saturday New Year, otherwise the weekday nearest to the fixed date: the date itself when it is one, and never more than a day away |
| Calendar.MarketHolidays | spy_der/runtime/calendar.py:82-107 | the set built holds exactly the closures of the year |
| Calendar.HolidaysByDate | spy_der/runtime/calendar.py:82-107 | a day is a closure exactly when it falls on one of ten dates written out by weekday and day of the month, 19 June from 2022 on |
| Calendar.MonthsFollow | spy_der/runtime/calendar.py:51-62 | the day count gives every month its length, 29 February included |
| Calendar.HolidayStaysInYear | spy_der/runtime/calendar.py:65-107 | a closure is a weekday inside the year it belongs to |
| Calendar.HolidaysAreAWeekApart | spy_der/runtime/calendar.py:82-107 | two different closures, of the same or of different years, are at least seven days apart |
| Calendar.AtMostOneHolidayAWeek | spy_der/runtime/calendar.py:82-107 | among any seven consecutive days at most one is a market holiday |
| Calendar.FourTradingDaysAWeek | spy_der/runtime/calendar.py:144-145 | among any seven consecutive days at least four are trading days |
| Calendar.ReopensWithinFourDays | spy_der/runtime/calendar.py:144-145 | a trading day follows within four days of any day |
| Calendar.EarlyCloses | spy_der/runtime/calendar.py:110-141 | the set built holds exactly the shortened days of the year |
| Calendar.EarlyClosesTrade | spy_der/runtime/calendar.py:110-149 | a shortened day is a trading day of its year |
| Calendar.EarlyClosesByDate | spy_der/runtime/calendar.py:110-141 | the shortened days are the Friday after Thanksgiving, and 3 July and 24 December when they and the day after are weekdays; the exclusion of holidays never acts |
| Calendar.SessionFor | spy_der/runtime/calendar.py:181-193 | a session exists exactly on trading days |
| Calendar.SessionHours | spy_der/runtime/calendar.py:181-193 | a session opens at 9:30 and lasts six and a half hours, or three and a half on a shortened day |
| Calendar.NextSession | spy_der/runtime/calendar.py:221-229 | the earliest session opening strictly after the moment within the limit; with a limit of four days or more it always exists, within four days |
| Calendar.DecisionTimes | spy_der/runtime/calendar.py:250-263 | the timestamps are the open plus multiples of the interval, all before the close, and as many as fit; none for a non-positive interval |
| HiddenStates.BuildTransitionMatrix | spy_der/models/hidden_state/hmm.py:75-117 | filling rows in place and normalising produces the specified matrix, for a neighbour share from zero to one |
| HiddenStates.BuiltHolds | spy_der/models/hidden_state/hmm.py:75-117 | the entries of the matrix: a state stays with its persistence clipped to [0.01, 0.99], or 0.85 when absent; its neighbours share equally the given part of the rest and the other states the remainder, or whichever exist take all of it |
| HiddenStates.RawRowSumsToOne | spy_der/models/hidden_state/hmm.py:75-117 | each row sums to one before it is normalised |
| HiddenStates.BuiltIsRowStochastic | spy_der/models/hidden_state/hmm.py:75-117 | for every neighbour share from zero to one the rows of the built matrix are non-negative and sum to one |
| HiddenStates.BuiltIsPositiveExactlyWhen | spy_der/models/hidden_state/hmm.py:75-117 | no transition has probability zero if and only if every state has no neighbours, or the share is positive and leaves something for the other states, if any |
| HiddenStates.ZeroShareStarvesNeighbours | spy_der/models/hidden_state/hmm.py:100-113 | an instance where a transition has probability zero |
| HiddenStates.PathsAreAllHistories | spy_der/models/hidden_state/hmm.py:141-162 | the listed hidden histories are all state sequences of the length, each once |
| HiddenStates.JointMassIsForward | spy_der/models/hidden_state/hmm.py:141-162 | the sum over all hidden histories of prior times transitions times likelihoods obeys the forward recursion |
| HiddenStates.FallbackIsUnreachable | spy_der/models/hidden_state/hmm.py:155-158 | from a distribution, a row-stochastic matrix and a positive likelihood the weighed total is positive, so the fallback branch is never taken |
| HiddenStates.UpdateKeepsDistribution | spy_der/models/hidden_state/hmm.py:141-162 | one update keeps the belief a distribution |
| HiddenStates.UpdateIsPositive | spy_der/models/hidden_state/hmm.py:141-162 | when no transition has probability zero one update makes any belief strictly positive |
| HiddenStates.FilterIsBayes | spy_der/models/hidden_state/hmm.py:141-162 | for any row-stochastic matrix, after any sequence of observations the stepwise normalised belief equals the normalised sum over all hidden histories |
| HiddenStates.LikelihoodIsPositive | spy_der/models/hidden_state/hmm.py:147-151 | an absent or tiny emission counts as 1e-12, and the damped likelihoods are positive |
| HiddenStates.HiddenStateFilter.constructor | spy_der/models/hidden_state/hmm.py:120-135 | a new filter over any row-stochastic matrix holds the uniform belief and no observation |
| HiddenStates.HiddenStateFilter.Reset | spy_der/models/hidden_state/hmm.py:137-139 | reset returns to the uniform belief and no observation |
| HiddenStates.HiddenStateFilter.Update | spy_der/models/hidden_state/hmm.py:141-162 | an update appends the observation and stores the updated belief, keeping the belief equal to the filter of everything seen |
| Market.QuoteFor | spy_der/domain/market.py:223-229 | a quote of the chain for the contract; none exactly when there is none |
| Market.QuoteIsFirst | spy_der/domain/market.py:223-229 | no quote before the one found is for the contract |
| Market.InvertedLegsNeedSameQuotes | spy_der/execution/orders.py:43-64 | inverting a structure does not change which quotes it needs |
| Costs.ClosingPriceIsExitPrice | spy_der/execution/manager.py:63-74 | the broker's achievable price of the inverted structure is exactly minus the manager's exit price, for any structure and quotes |
| Costs.OpenCloseSpread | spy_der/execution/fills.py:61-98 | opening and closing on the same quotes loses twice the entry slippage |
| Costs.RoundTripIsExact | spy_der/execution/fills.py:67-88 | opening at the achievable price and closing at the exit price with both commissions costs exactly the round-trip cost |
| Costs.AchievableIsBetween | spy_der/execution/paper_broker.py:172-183 | for any legs and quotes the achievable price lies from the midpoint toward the touch by the share of the spread paid, plus the adverse ticks on every contract |
| Costs.EntrySlippageIsConceded | spy_der/execution/fills.py:91-98 | entry slippage is what the achievable price concedes against the midpoint |
| Costs.RoundTripTakes | spy_der/execution/fills.py:67-88 | a round trip costs, each way and per unit, that concession and the commission and exchange fee of every contract |
| Market.QuotesForExactlyWhen | spy_der/execution/paper_broker.py:157-166 | quotes are found exactly when each leg's first quote has a positive midpoint, and are those quotes in order |
| Positions.Mark | spy_der/execution/manager.py:50-61 | marking changes only the mark of a position |
| Positions.MarkIsClosingCash | spy_der/execution/manager.py:50-74 | a mark is minus what the broker would charge for the inverse structure, at the moment of the snapshot, and an unquoted leg leaves it; unrealised profit is the cash of closing there |
| Positions.ExposureIsSomeLeg | spy_der/execution/manager.py:153-173 | assignment exposure holds if and only if some short leg is within the buffer of the money and of its expiry |
| Positions.ExitIsFirstCalled | spy_der/execution/manager.py:76-138 | the exit taken is the first in precedence whose condition, written out, holds at the marked profit: switch, assignment, end of session, stop, target, time |
| Positions.StopIsWithinMaxLoss | spy_der/domain/strategy.py:151-164 | the enforced stop is a positive loss no greater than the maximum loss |
| Positions.LegQuantities | spy_der/execution/reconciliation.py:43-56 | the counter holds the net signed contracts of every option over the open positions, with zero entries dropped |
| Positions.LegNetAddsUp | spy_der/execution/reconciliation.py:43-56 | each leg of an option adds its quantity times the contracts to the net |
| Positions.Reconcile | spy_der/execution/reconciliation.py:59-91 | one discrepancy of the right kind, and no second, for each option whose nets differ; none if and only if the books agree everywhere |
| Positions.MatchedBooksAgree | spy_der/execution/reconciliation.py:59-91 | books listing the same positions with the same open flags net alike in every option |
| Positions.NetIgnoresClosed | spy_der/execution/reconciliation.py:43-56 | closed positions do not change the nets |
| Broker.FillFitsDisplayedSize | spy_der/execution/paper_broker.py:185-195 | a fill takes no more of any leg than its displayed bid and ask sizes |
| Broker.FillSizeIsGreatest | spy_der/execution/paper_broker.py:185-195 | a fill is all that remains when the least displayed size holds it for the largest leg, otherwise the greatest number that size holds, or nothing when partial fills are off |
| Broker.FillsLegByLegExactlyWhen | spy_der/execution/paper_broker.py:185-195 | the fill is the greatest each leg's own displayed sizes hold, whatever they are, if and only if all legs trade the same number of contracts |
| Broker.BackspreadFillsNothing | spy_der/execution/paper_broker.py:185-195 | an instance: a one-by-two structure whose every leg shows enough fills nothing |
| Broker.PollFacts | spy_der/execution/paper_broker.py:82-123 | one poll keeps the order's identity, fills between one and the remaining contracts at no more than the limit and with the commission of that size, or nothing, and leaves terminal orders alone |
| Broker.PollSpendsBudget | spy_der/execution/paper_broker.py:82-123 | every poll of a live order ends it or spends its budget of remaining contracts plus reprices |
| Broker.TerminalAbsorbs | spy_der/execution/paper_broker.py:82-90 | no sequence of polls changes a terminal order |
| Broker.EveryOrderEnds | spy_der/execution/paper_broker.py:82-123 | whatever the market does, an order is terminal after one poll more than its budget |
| Broker.SubmittedOrderEnds | spy_der/execution/paper_broker.py:72-123 | a submitted order is terminal after contracts + max_reprice_attempts + 1 polls |
| Broker.FillsAddUp | spy_der/execution/paper_broker.py:223-260 | filled contracts equal the sum of the fills and never exceed the order, over any polls |
| Broker.FilledExactlyWhenComplete | spy_der/execution/paper_broker.py:223-260 | over any polls an order is marked filled exactly when all its contracts are, and partially filled only in between |
| Broker.FillPriceIsBounded | spy_der/execution/paper_broker.py:82-123 | every fill price is at most the limit plus the concessions still to come |
| Broker.SubmittedFillPrice | spy_der/execution/paper_broker.py:197-221 | for a submitted order the fill price is at most the initial limit plus max_reprice_attempts concessions of one step per leg |
| Broker.LoopAlwaysBreaks | spy_der/pipeline.py:241-248 | with more polls than reprices the poll loop always leaves on a fill or a terminal order |
| Broker.LoopFacts | spy_der/pipeline.py:273-276 | the poll loop keeps the order's identity and returns at most one fill, within the remaining contracts |
| Broker.LoopFillsAtAchievable | spy_der/execution/paper_broker.py:94-119 | a loop that fills fills at the achievable price of its snapshot |
| Broker.LoopCanFillExactlyWhen | spy_der/execution/paper_broker.py:197-221 | on one snapshot a live order can fill, for some draws, if and only if the displayed sizes allow a contract and the achievable price is within the limit, or within all remaining concessions of a limit that is no credit |
| Broker.LostCreditNeverFills | spy_der/execution/paper_broker.py:197-221 | on one snapshot a credit limit below the achievable price never fills, because repricing lowers it further |
| Broker.LoopLimit | spy_der/execution/paper_broker.py:197-221 | an order started at the achievable price that fills does so at its first accepted draw, for the displayed size, with a limit one concession per refused draw above the price for a debit and none for a credit |
| Broker.PaperBroker.constructor | spy_der/execution/paper_broker.py:40-56 | a new broker holds the starting equity and nothing else |
| Broker.PaperBroker.Submit | spy_der/execution/paper_broker.py:72-80 | an order is accepted as working if and only if connected and its identifier is new; otherwise nothing changes |
| Broker.PaperBroker.Poll | spy_der/execution/paper_broker.py:82-123 | one poll stores the specified order, appends its fill and charges opening commissions; unknown orders change nothing |
| Broker.PaperBroker.Cancel | spy_der/execution/paper_broker.py:125-133 | a known live order becomes cancelled, a terminal one stays, an unknown one is an error |
| Broker.CancelEndsTheOrder | spy_der/execution/paper_broker.py:125-133 | a cancelled order is over, keeping what it filled; an order already over and every other order stay |
| Broker.PaperBroker.RegisterPosition | spy_der/execution/paper_broker.py:140-141 | the position is stored under its identifier |
| Broker.PaperBroker.SettlePosition | spy_der/execution/paper_broker.py:143-145 | the position is stored and the profit added to equity |
| Broker.PaperBroker.Disconnect | spy_der/execution/paper_broker.py:147-149 | only the connection flag changes |
| Broker.PaperBroker.Reconnect | spy_der/execution/paper_broker.py:151-152 | only the connection flag changes |
| Risk.SessionState.constructor | spy_der/risk/limits.py:94-104 | a new session record is empty |
| Risk.SessionState.RollTo | spy_der/risk/limits.py:106-117 | a change of day resets the daily counters and raises the peak; the same day changes nothing |
| Risk.SessionState.RecordTrade | spy_der/risk/limits.py:119-123 | a trade adds its result, extends or ends the losing run and raises the peak |
| Risk.SessionState.RecordSlippage | spy_der/risk/limits.py:125-128 | the sample is appended and the oldest beyond 200 dropped |
| Risk.ConsecutiveLossesAreTrailing | spy_der/risk/limits.py:119-123 | over any history consecutive_losses is the length of the trailing run of losing trades |
| Risk.DailyTotalsAreSinceLastRoll | spy_der/risk/limits.py:106-123 | over any history realized_pnl and trades_today sum and count the trades since the last change of day |
| Risk.PeakIsGreatestObserved | spy_der/risk/limits.py:106-123 | over any history peak_equity is the greatest equity observed at rolls and trades, and zero before any |
| Risk.SamplesAreRecent | spy_der/risk/limits.py:125-128 | over any history slippage_samples are the last 200 samples recorded |
| Risk.KillSwitch.Trip | spy_der/risk/limits.py:159-160 | tripping latches: an active switch keeps its first detail |
| Risk.KillSwitch.Reset | spy_der/risk/limits.py:162-166 | reset clears one switch or all |
| Risk.SwitchesOnlyLatch | spy_der/risk/engine.py:139-180 | an update keeps every active switch with its detail |
| Risk.SizingIsGreatest | spy_der/risk/sizing.py:74-128 | sizing returns the greatest number of contracts up to the cap whose total risk fits every hard cap, zero if none |
| Verdicts.SizedExactlyWhen | spy_der/risk/sizing.py:74-128 | sizing buys n contracts or more if and only if the contract limit allows n and their total loss is within the quality budget, the account fraction, the dollar cap and the remaining portfolio risk, each written out |
| Verdicts.BindingIsFirstTightest | spy_der/risk/sizing.py:99-120 | the binding constraint is the contract cap exactly when one contract more would fit the others, and otherwise the first of the least caps |
| Verdicts.ConfidenceFactorIsALine | spy_der/risk/sizing.py:35-54 | the factor is zero up to the floor and above it a straight line from one half at the floor to one at full confidence |
| Verdicts.ConfidenceFactorIsMonotone | spy_der/risk/sizing.py:35-54 | more confidence never sizes less |
| Verdicts.ConfidenceChecksAgreeExactlyWhen | spy_der/risk/sizing.py:35-54 | the engine admits no confidence that sizing grants nothing, if and only if the confidence is not the floor itself |
| Verdicts.FloorIsNeverTraded | spy_der/risk/engine.py:213-216 | at the floor a verdict never names low confidence and always names zero contracts |
| Risk.SizableMeansAffordable | spy_der/risk/sizing.py:99-120 | sizing buys at least one contract if and only if one contract fits the quality budget and every other cap |
| Risk.BudgetIsGenerousExactlyWhen | spy_der/risk/engine.py:360-401 | the pre-ranking filter discards nothing sizing would accept if and only if the candidate's liquidity is at most 0.8, the formula grants nothing, or another cap already binds |
| Risk.BudgetDropsASizable | spy_der/risk/engine.py:360-401 | an instance: sizing buys one contract of a candidate the filter discards |
| Risk.OneContractCheckHoldsExactlyWhen | spy_der/risk/sizing.py:99-128 | checking one contract keeps the sized risk within a room, whatever the candidate's loss, if and only if at most one contract may be bought, no cap exceeds the room, or there is none |
| Risk.ProtectsExactlyWhen | spy_der/risk/sizing.py:99-128 | checking one contract against one room keeps what sizing buys within another room, whatever the loss, if and only if nothing passes, nothing can be bought, or the other holds the tightest cap or as many contracts as may be bought at the greatest loss that passes |
| Risk.NearestExpirationHoldsExactlyWhen | spy_der/risk/engine.py:347-349 | at the candidate's nearest expiration the check keeps the sized risk within the limit if and only if at most one contract may be bought, the tightest cap fits the room left, or there is none |
| Risk.SameExpirationHoldsExactlyWhen | spy_der/risk/engine.py:48-53 | at every expiration of the candidate's legs the check at the nearest one keeps what sizing buys within the limit if and only if nothing passes, nothing can be bought, or each has room for the tightest cap or for as many contracts as may be bought at the greatest loss that passes |
| Risk.SameExpirationOverrun | spy_der/risk/engine.py:323-353 | an instance: every portfolio check is silent and the contracts sized exceed the limit at the nearest expiration |
| Risk.LaterExpirationOverrun | spy_der/risk/engine.py:323-353 | an instance: every portfolio check is silent and one contract of a calendar exceeds the limit at its later expiration |
| Risk.CandidateVetoesAreLimits | spy_der/risk/engine.py:243-307 | the candidate checks are silent if and only if every per-trade limit holds |
| Risk.LimitIsReportedExactlyWhen | spy_der/risk/engine.py:243-307 | for every per-trade limit, the verdict names it if and only if the candidate breaks it and its maximum loss is finite and positive; otherwise the undefined loss is named and nothing is approved |
| Risk.LegLimitIsSkipped | spy_der/risk/engine.py:243-253 | an instance: five legs against a limit of four go unreported for an infinite maximum loss |
| Verdicts.VetoIsNamedExactlyWhen | spy_der/risk/engine.py:87-135 | a verdict names any of its vetoes if and only if the check behind it fails on the rolled session and the updated switches |
| Verdicts.RefusalGrantsNothing | spy_der/risk/engine.py:111-135 | an approval is a verdict without vetoes, and a refusal grants no contracts and no price |
| Risk.ApprovedExactlyWhen | spy_der/risk/engine.py:87-135 | a candidate is approved if and only if no switch is active after the update and every session, environment, broker, trade and portfolio limit holds with at least one contract |
| Risk.ApprovalMeans | spy_der/risk/engine.py:87-135 | an approval grants contracts within the contract cap whose maximum loss fits the remaining portfolio risk and both trade caps, one contract of which fits the same-expiration room, with a free strategy slot |
| Risk.RiskEngine.UpdateKillSwitches | spy_der/risk/engine.py:139-180 | the method trips exactly the specified switches |
| Risk.RiskEngine.Evaluate | spy_der/risk/engine.py:87-135 | the method rolls the session, updates the switches and returns the specified decision and sizing |
| Invariants.RemarkKeeps | spy_der/pipeline.py:218-220 | re-marking an open position changes no account, limit or history |
| Invariants.WorkKeeps | spy_der/execution/paper_broker.py:72-123 | working one fresh order keeps every account, charging exactly its opening commission |
| Invariants.SettleKeeps | spy_der/pipeline.py:253-264 | settling a closed position keeps the books, the ledger, the session identity and the limits |
| Invariants.CloseLowersExposure | spy_der/risk/engine.py:36-46 | closing a position keeps every exposure limit, including the one-commission excess |
| Invariants.OpenFitsExposure | spy_der/risk/engine.py:323-358 | a position within the granted contracts keeps the count, risk and same-expiration bounds, exceeding the last two by at most its own entry commission |
| Invariants.FurtherContractsFitSlack | spy_der/risk/sizing.py:99-128 | the contracts after the first risk at most the dollar cap times (max_contracts - 1) / max_contracts |
| Invariants.ClosePositionKeeps | spy_der/pipeline.py:233-264 | one attempted close keeps the invariant, touches only its own position and leaves it open unless it filled |
| Invariants.ExecuteKeeps | spy_der/pipeline.py:266-302 | executing an approved candidate keeps the invariant, filled in full, in part or not at all |
| Invariants.JudgedKeeps | spy_der/risk/engine.py:96-97 | an evaluation keeps the invariant and only adds switches |
| Runs.ManageKeeps | spy_der/pipeline.py:214-231 | walking the open positions keeps the invariant and the number of positions |
| Runs.FlattenKeeps | spy_der/pipeline.py:517-534 | a forced close of everything keeps the invariant and the number of positions |
| Runs.StepKeeps | spy_der/pipeline.py:102-212 | a whole decision cycle keeps the invariant, only adds switches, and opens nothing when a switch was active before it |
| Runs.RunKeeps | spy_der/pipeline.py:102-302 | every sequence of cycles, forced closes, outages and operator actions keeps the invariant and only adds to history |
| Runs.BooksAlwaysReconcile | spy_der/execution/reconciliation.py:59-91 | in every reachable state reconciliation succeeds and position identifiers are distinct |
| Runs.TermsAreImmutable | spy_der/domain/execution.py:103-111 | over any run legs, contracts, entry price, exit plan and maximum loss never change and closed positions are never touched again |
| Runs.ExposureIsCapped | spy_der/risk/engine.py:323-358 | in every reachable state the open count and the open maximum loss are within the portfolio limits; with fees the excess is at most one entry commission |
| Runs.SameExpirationIsCapped | spy_der/risk/engine.py:347-349 | in every reachable state the open risk counted under an expiration is what expires there first, within the limit but for the slack of further contracts and one entry commission, plus what has a later leg there, which no check looks at and which is zero without calendars |
| Runs.ApprovedFillFits | spy_der/risk/engine.py:323-358 | what a fill of an approved candidate leaves every exposure limit at: slots, portfolio risk, trade risk and the same expiration |
| Runs.SwitchesTripExactlyWhen | spy_der/risk/engine.py:139-180 | in every state a run can decide in, a switch is active after the evaluation if and only if it was before or the history, data, broker or models call for it: the losing streak, the day's results at or below minus the dollar limit or minus the equity fraction, the fall from the greatest equity and the last 200 slippage samples are those of the recorded history |
| Runs.EveryDueExitIsTried | spy_der/pipeline.py:214-264 | a connected cycle sends a new order offsetting every quoted position whose exit is due, for all its contracts, and closes the position for that reason if the order fills |
| Runs.SwitchExitsEveryPosition | spy_der/execution/manager.py:99-100 | in every reachable state an active switch makes that every quoted open position, for the switch as the reason |
| Runs.CycleFailsExactlyWhen | spy_der/pipeline.py:102-212 | a cycle fails if and only if a quoted position is due to exit while the broker is away, or trading is open and no forecast could be built |
| Runs.CycleAddsUp | spy_der/pipeline.py:102-302 | a cycle adds one position exactly when it reports a fill, and unless it failed the open ones change by that fill less the exits it reports |
| Runs.FlattenFailsExactlyWhen | spy_der/pipeline.py:517-534 | a forced close fails if and only if the broker is away and some open position is quoted |
| Runs.CalledSwitchLocksOut | spy_der/risk/engine.py:87-180 | when a cycle comes to decide and anything calls for a switch, it opens nothing, and no run after it does until an operator reset |
| Runs.EquityIsAccountedFor | spy_der/execution/paper_broker.py:143-145 | in every reachable state equity is the start less opening commissions plus settled results, and those commissions are exactly the positions' entry commissions |
| Runs.SessionCountersAreTrue | spy_der/risk/limits.py:94-128 | in every reachable state the session counters equal what the trades, rolls and fills of the run make them, and the slippage recorded is that of the opening fills, one sample each and in order |
| Runs.OrdersAreSettled | spy_der/execution/paper_broker.py:223-260 | in every reachable state each order's fills sum to its filled contracts within the order, and when polls exceed reprices each order is terminal or has filled something |
| Runs.SwitchesHold | spy_der/risk/limits.py:147-160 | absent a reset every active switch stays active over any run, and no position is opened |
| Closings.CloseConcedes | spy_der/pipeline.py:233-251 | a filled close pays the exit price for the displayed size at its first accepted draw and leaves a limit one concession away per refused draw, none when closing for a credit |
| Closings.ExecutedTerms | spy_der/pipeline.py:266-302 | an opened position carries the candidate's terms, the achievable price and commission of its fill, and no result |
| Closings.ExecutedSample | spy_der/pipeline.py:295-301 | the slippage sample of an opening is the candidate's estimate for the contracts filled beside their entry slippage |
| Closings.BookedDiffersFromCashBy | spy_der/pipeline.py:253-261 | the profit booked exceeds what the filled contracts earned by the gain on the contracts left unfilled less the concessions over the whole position |
| Closings.BookedIsCashExactlyWhen | spy_der/pipeline.py:253-261 | the profit booked is what the filled contracts earned: for a full fill if and only if the first draw is accepted, for a part filled at the first draw if and only if it exits at its entry price, in general if and only if that difference vanishes |
| Closings.HalfCloseBooksTwice | spy_der/pipeline.py:253-261 | an instance: one of two call spreads closes for a gain of 200, the close books 400 and the whole position counts as closed |
| Closings.RoundTripRealisesItsCost | spy_der/pipeline.py:233-302 | executing a candidate and closing the position on one snapshot with a full first-poll fill realises exactly minus the round-trip cost |
| Openings.ApprovedOpensExactlyWhen | spy_der/risk/engine.py:403-413 | an approved order can fill on its decision snapshot, for some draws, if and only if the sizes allow a contract and the achievable price is within the approval: for a debit the estimate, a tick per leg and every concession, for a credit the estimate less a tick per leg |
| Openings.CreditNeverOpens | spy_der/risk/engine.py:403-413 | a credit estimated less than a tick per leg above the achievable price never opens on its decision snapshot |
| Openings.EstimateIsAchievable | spy_der/optimizer/engine.py:219-229 | with one unstressed cost model the estimate of a generated structure is exactly the broker's achievable price |
| Openings.GeneratedOpensExactlyWhen | spy_der/optimizer/engine.py:219-229 | an approved generated structure can open on its decision snapshot if and only if it is no credit and the sizes allow a contract |
| Openings.CreditOneTickShort | spy_der/execution/paper_broker.py:197-221 | an instance: a call spread sold for an achievable credit of 1.00 asks for 1.02 and nothing fills it |
| Pipeline.PortfolioState.Add | spy_der/risk/engine.py:72-73 | the position is appended |
| Pipeline.PortfolioState.Close | spy_der/risk/engine.py:75-76 | exactly the entries with the identifier are replaced |
| Pipeline.DecisionPipeline.constructor | spy_der/pipeline.py:82-94 | a new pipeline is the empty desk |
| Pipeline.DecisionPipeline.PollUntilDone | spy_der/pipeline.py:241-248 | the loop returns the specified outcome and stores exactly it in the broker |
| Pipeline.DecisionPipeline.WorkOrder | spy_der/pipeline.py:240-248 | an accepted order is worked to the specified outcome; a refused one changes nothing |
| Pipeline.DecisionPipeline.ClosePosition | spy_der/pipeline.py:233-264 | the method leaves exactly the state and signal of the specified close |
| Pipeline.DecisionPipeline.ManageOne | spy_der/pipeline.py:218-230 | one position is marked and closed exactly as specified |
| Pipeline.DecisionPipeline.ManageOpenPositions | spy_der/pipeline.py:214-231 | the loop leaves exactly the state, exits and error of the specified walk |
| Pipeline.DecisionPipeline.Execute | spy_der/pipeline.py:266-302 | the method leaves exactly the state and fill of the specified execution |
| Pipeline.DecisionPipeline.Step | spy_der/pipeline.py:102-212 | the method is the specified cycle, in order and with its error exits |
| Pipeline.DecisionPipeline.ForceCloseAll | spy_der/pipeline.py:517-534 | the loop leaves exactly the state and closes of the specified flatten |
| StateStore.PositionRoundTrip | spy_der/runtime/state_store.py:282-371 | saving and loading a position keeps everything but its credit multiple, so it is exact if and only if there is none |
| StateStore.LoadedIsSavedAgain | spy_der/runtime/state_store.py:282-371 | any record that loads is saved again as it was, with the optional fields it lacked written out |
| StateStore.AbsentReadsAsDefault | spy_der/runtime/state_store.py:293-371 | a record loads as it would with its absent optional fields written out, and fails to load exactly when that one does |
| StateStore.StopSurvivesExactlyWhen | spy_der/runtime/state_store.py:304-323 | a restart keeps the enforced stop if and only if there is no credit multiple, the entry was no credit, or both rules name the same dollars |
| StateStore.CreditStopMoves | spy_der/runtime/state_store.py:304-323 | an instance: a stop of 150 becomes 200 |
| StateStore.BeliefSurvives | spy_der/runtime/state_store.py:223-233 | a stored distribution comes back unchanged |
| StateStore.RestoredBeliefIs | spy_der/runtime/state_store.py:223-233 | a stored belief with positive mass comes back as the distribution it is proportional to; any other leaves the current belief, which is uniform only if it already was |
| StateStore.DegenerateBeliefStays | spy_der/runtime/state_store.py:223-233 | an instance: a belief that is not uniform is kept when the stored one has no mass |
| StateStore.RestoreFailsClosed | spy_der/runtime/state_store.py:190-258 | whatever was stored, active switches stay, stored ones come back, unknown ones become MANUAL, and BROKER_STATE is tripped if and only if it was active or stored or some position could not be rebuilt |
| StateStore.RestartRecovers | spy_der/runtime/state_store.py:130-268 | restoring a capture recovers the open positions in both books, the equity, the session record and exactly the saved switches |
| StateStore.RestartKeepsSound | spy_der/runtime/state_store.py:175-268 | a restored desk satisfies the whole invariant from a new baseline |
| StateStore.LivesAreSound | spy_der/runtime/state_store.py:175-268 | every state of every life, with any number of crashes and restarts from any earlier save, satisfies the invariant |
| StateStore.LivesAreSafe | spy_der/runtime/state_store.py:1-19 | across restarts the books reconcile, identifiers are distinct and the open count and risk stay within limits |
| StateStore.SwitchesSurvive | spy_der/runtime/state_store.py:1-19 | across steps, crashes and restarts a switch saved since it tripped stays active without a reset, and meanwhile the number of open positions never grows |
| StateStore.RuntimeStateStore.Save | spy_der/runtime/state_store.py:110-161 | the stored row is a capture of the pipeline under the current schema |
| StateStore.RuntimeStateStore.Restore | spy_der/runtime/state_store.py:163-268 | nothing stored and a schema mismatch change nothing; otherwise the pipeline becomes the restored desk |
| StateStore.RuntimeStateStore.RestoreAllSwitches | spy_der/runtime/state_store.py:193-200 | the switches are tripped in stored order, latching |
| StateStore.RuntimeStateStore.RestorePositions | spy_der/runtime/state_store.py:212-223 | exactly the positions that decode are added to both books, in order |
| StateStore.ListSwitches | spy_der/runtime/state_store.py:139-139 | the stored entries list each active switch once with its detail |
| Supervision.HaltsExactlyOnRepeatedFailure | spy_der/runtime/supervisor.py:281-304 | whatever happens, the failure counter is the trailing run of failed cycles and the loop halts, under MANUAL, exactly when that run reaches the maximum |
| Supervision.SupervisionIsARun | spy_der/runtime/supervisor.py:206-259 | every supervised history is a run of desk events without a reset, so all theorems about runs apply |
| Supervision.LoopRunsExactly | spy_der/runtime/supervisor.py:206-231 | inside sessions, with no stop asked for, the loop runs one cycle per moment up to the configured number, unless it halts |
| Supervision.StopEndsTheLoop | spy_der/runtime/supervisor.py:206-231 | a stop ends the loop there, whatever would follow |
| Supervision.TotalsAreTrue | spy_der/runtime/supervisor.py:233-304 | the cycles, failures and decisions reported are those of the history, trades are the positions opened, and exits the positions closed when no cycle failed and nothing was flattened |
| Supervision.FlattenOncePerSession | spy_der/runtime/supervisor.py:344-394 | once a session's flatten has run, any further feed of the session goes on exactly as if flattening were off |
| Supervision.FlattenRunsExactlyWhen | spy_der/runtime/supervisor.py:344-394 | the flatten runs to its end if and only if it is configured, due, not yet done, something is open, the provider answers and the broker is connected or nothing open is quoted |
| Supervision.FlattenEmptiesOrTrips | spy_der/runtime/supervisor.py:344-394 | a completed flatten leaves nothing open unless BROKER_STATE is tripped |
| Supervision.LateSessionOpensNothing | spy_der/risk/engine.py:184-200 | while every snapshot is too close to the close to trade, no feed, with or without a flatten, makes the number of open positions grow or clears a switch |
| Supervision.SessionEndsFlat | spy_der/runtime/supervisor.py:344-394 | when the flatten comes later than the last minute a trade is allowed, the session ends with nothing open or BROKER_STATE tripped |
| Supervision.CrashLosesFailedCycles | spy_der/runtime/supervisor.py:233-259 | with a save after every cycle the store holds the desk after the last completed cycle or flatten, and every cycle since has failed |
| Supervision.UnsavedIsBounded | spy_der/runtime/supervisor.py:281-304 | while the loop runs, fewer cycles than max_consecutive_failures are unsaved |
| Supervision.FailedCycleForgets | spy_der/runtime/supervisor.py:233-259 | an instance: a failed cycle settles a position that the last save still holds open |
| Supervision.RestartFromStoreIsALife | spy_der/runtime/supervisor.py:167-188 | a restart from what the supervisor saved is a life, so every theorem about lives holds of it |
| Supervision.Supervisor.constructor | spy_der/runtime/supervisor.py:105-126 | a new supervisor has counted nothing |
| Supervision.Supervisor.OnFailure | spy_der/runtime/supervisor.py:281-304 | one failure is counted and, at the maximum, halts under MANUAL |
| Supervision.Supervisor.RunCycle | spy_der/runtime/supervisor.py:233-259 | a failed provider or step is counted and saves nothing, a completed one resets the run of failures, updates the totals and, when configured, leaves a capture of the desk in the store |
| Supervision.Supervisor.MaybeCloseForSessionEnd | spy_der/runtime/supervisor.py:344-394 | the flatten happens exactly when due, once, escalates stranded positions and leaves a capture of the desk in the store |
| Supervision.Supervisor.Startup | spy_der/runtime/supervisor.py:167-202 | the stored state is restored and BROKER_STATE tripped exactly when the books then disagree |
| Supervision.Supervisor.Run | spy_der/runtime/supervisor.py:206-231 | the store is restored first, another schema stops the run unchanged, and otherwise the loop is the specified watch over its feed, leaving a capture of the final state in the store |
| Exits.SimulateExits | spy_der/simulation/exits.py:98-185 | the whole-array simulation gives for every path the step, reason, P&L, holding time and excursions of the step-by-step walk |
| Exits.FillColumn | spy_der/simulation/exits.py:122-133 | one column of the P&L matrix is filled and no other touched |
| Exits.FirstTrue | spy_der/simulation/exits.py:158-158 | the first triggered step of a row |
| Exits.MarkTriggers | spy_der/simulation/exits.py:149-156 | a step is marked if and only if some condition fires there or it is the last |
| Exits.ResolveReason | spy_der/simulation/exits.py:188-222 | the reason is the highest-precedence condition holding at the exit step |
| Exits.Excursions | spy_der/simulation/exits.py:172-185 | the greatest and least P&L over the held prefix |
| Exits.WalkFindsFirstTrigger | spy_der/simulation/exits.py:98-185 | the walk stops at the first trigger and names what fired there |
| Exits.ExcursionsBracketPnl | spy_der/simulation/exits.py:172-185 | adverse excursion <= gross exit P&L <= favourable excursion |
| Exits.SimulatedPnlIsUnrealized | spy_der/simulation/exits.py:122-133 | a simulated step shows per contract the profit the live manager would mark at that value |
| Exits.SimulatedStopIsEnforcedStop | spy_der/simulation/exits.py:136-143 | the simulated stop is exactly the stop the position manager enforces |
| Exits.LiveExitIsSimulatedExactlyWhen | spy_der/execution/manager.py:76-173 | without an active switch the live manager names the same exit at one quote as the simulation at one step if and only if some short leg is exposed to assignment, or neither the simulated cutoff nor the end of the session has come |
| Exits.CutoffExitsOnlyInSimulation | spy_der/simulation/exits.py:140-151 | an instance: past the cutoff with the short leg far from the money only the simulation exits |
| Exits.ExposureIsAfterCutoff | spy_der/execution/manager.py:153-173 | no leg counts as exposed to assignment before the simulated cutoff |
| Exits.SubsampleIsThin | spy_der/simulation/price_paths.py:206-211 | thinning leaves at most max_steps steps |
| Exits.SubsampleIsExact | spy_der/simulation/price_paths.py:206-211 | the steps kept are the multiples of the least stride that leaves few enough, and the last step |
| Exits.ThinningNeverExitsEarlier | spy_der/simulation/price_paths.py:187-222 | watching fewer steps never makes a path exit earlier |
| Exits.TruncationIsExact | spy_der/simulation/price_paths.py:224-242 | a truncation keeps exactly the steps within the horizon, and never fewer than two |
| Exits.ShorterHorizonTouchesLess | spy_der/simulation/price_paths.py:162-177 | on the same paths a shorter horizon never touches either barrier more often |
| Exits.TouchCountAddsUp | spy_der/simulation/price_paths.py:162-177 | a path is counted, once, exactly when some step of it is on or beyond a barrier |
| Density.SortIsAscending | web/src/lib/density.ts:61-64 | sorting orders by the key |
| Density.InvertUndoesInterpolate | spy_der/domain/forecast.py:121-159 | on a grid rising in both coordinates inverting the interpolated quantile returns tau, for every tau covered |
| Density.ReadIsMonotone | spy_der/domain/forecast.py:121-159 | reading a rising table, either way round, is monotone, strictly inside it, and saturates at its ends |
| Density.ReadIsStraight | spy_der/domain/forecast.py:121-159 | between neighbouring points the table is read on the straight line through them |
| Density.QuantilesRiseAtEveryMoment | web/src/lib/density.ts:90-128 | grids interpolated between rising horizons rise, at every moment ahead |
| Density.QuantilesMoveStraight | web/src/lib/density.ts:90-128 | between neighbouring horizons every price moves straight on the time scale, from the spot now and through each horizon's own grid |
| Density.MassesTelescope | web/src/lib/density.ts:189-201 | over rising levels the clamp at zero never acts and the bin masses sum to the difference of the outer levels |
| Density.ColumnSumsToOneExactlyWhen | web/src/lib/density.ts:189-204 | the raw mass is the difference of the outer cumulative probabilities, and a column sums to one if and only if the outer edges overlap the grid's prices; otherwise it is zero |
| Density.ColumnMissesTheAxis | web/src/lib/density.ts:189-204 | an instance: inversion stays at 0.9 beyond the grid and the column is all zeros |
| Density.ForecastColumnsSumToOneExactlyWhen | web/src/lib/density.ts:162-204 | the same for every forecast column of the surface, at every moment ahead |
| Density.ForecastMissesTheAxis | web/src/lib/density.ts:162-204 | an instance of a forecast column that does not sum to one |
| Density.PriceEdges | web/src/lib/density.ts:220-230 | the loop fills one edge more than samples: midpoints inside, mirrored at both ends, a unit bin for a single sample |
| Density.EndsAreMirrored | web/src/lib/density.ts:220-230 | the outer edges mirror the inner ones in the outer samples, inner edges are midpoints, and a single sample has a unit bin |
| Density.SamplesAreInside | web/src/lib/density.ts:220-230 | every sample of an increasing axis lies strictly inside its own bin |
| Density.EdgesIncrease | web/src/lib/density.ts:220-230 | the edges of an increasing axis strictly increase, so the bins partition it |
| Density.FillMasses | web/src/lib/density.ts:193-201 | the loop computes the masses and their sum |
| Density.FillColumn | web/src/lib/density.ts:189-204 | filling and normalising in place gives the specified column |
| Density.Mode | web/src/lib/density.ts:208-211 | the first greatest entry of a column |
| Density.BuildDensitySurface | web/src/lib/density.ts:162-217 | past columns are zero, every forecast column is that of its grid, and a missing grid is the only failure |
| Density.GridIsMissingExactlyWhen | web/src/lib/density.ts:90-128 | over horizons of common levels a grid ahead of now is missing exactly when there are no horizons or no levels |
| WalkForward.RollingWindows | spy_der/backtest/walk_forward.py:39-76 | exactly the folds that fit before the end, each one step after the previous; none for a non-positive duration |
| WalkForward.SpansFollow | spy_der/backtest/walk_forward.py:39-76 | train, validate and test follow one another without a gap, each for its own duration |
| WalkForward.PurgeIndices | spy_der/backtest/walk_forward.py:79-110 | exactly the surviving indices in increasing order; none for a negative horizon or embargo |
| WalkForward.SplitIndices | spy_der/backtest/walk_forward.py:113-136 | the purged train and validate lists and the test list of a fold |
| WalkForward.NoLeakIntoTest | spy_der/backtest/walk_forward.py:79-136 | in every fold the three lists are pairwise disjoint, no kept label covers an instant inside the test window, and none covers a test observation but at the instant the window opens |
| WalkForward.PurgeIsExact | spy_der/backtest/walk_forward.py:98-108 | a training observation is dropped if and only if its label covers an instant inside the test window |
| WalkForward.SurvivesExactlyWhen | spy_der/backtest/walk_forward.py:98-108 | against any ranges an observation survives if and only if it is in the training range, its label covers no instant inside the test range and it does not start within the embargo |

## Left out

- Payoff.MaxLossIsABound: covers settlement or liquidation of all legs at one spot, as the source values them; an early leg settled at one spot and the rest at another is outside it.
- Payoff.MaxProfitIsExact: single-expiry structures only, because the source records no exact maximum for several expirations.
- HiddenStates.BuildTransitionMatrix: for a neighbour share from 0 to 1, where a row is a distribution; the tables are those in force, after the defaults that replace missing or empty ones.
- HiddenStates.HiddenStateFilter.Update: the observation exponent is an arbitrary function keeping positive numbers positive, and the non-finite total is not modelled.
- Generators.Generate: prices are not rounded to cents, and a chain without a strike quoted on both rights is excluded, where the source raises an error.
- Families.GeneratedExactlyWhen: the order in which structures are yielded, and repeated ones, are left open.
- HiddenStates.BuiltHolds: for neighbour lists without repeats, as configured.
- Density.QuantilesMoveStraight: for horizons at distinct times; of two at one time the later listed holds beyond it.
- Calendar.NextSession: days and minutes are Eastern local time; daylight saving and UTC conversion are not modelled.
- Breakevens.ComputeBreakevens: for a far bound beyond the last strike; with a nearer one the source scans a grid that is not increasing.
- Payoff.ComputeProfile: the profile's breakevens are computed and proved in `Breakevens`, not stored in the profile.
- Positions.Reconcile: the order of the discrepancies, sorted in the source, is left open.
- Exits.LiveExitIsSimulatedExactlyWhen: for a loss and a profit of at least the simulation's floor of 1e-9 dollars.
- Risk.KillSwitch.Trip: an empty detail is kept empty instead of being replaced by the switch's name.
- Density.BuildDensitySurface: the modal, median and band tracks beside the density are not produced; `Density.Mode` is the modal entry of one column.
- Broker.PaperBroker.Poll: the fill-probability formula is replaced by an arbitrary accept or refuse for every poll.
- StateStore.RuntimeStateStore.Save: a save is an atomic replacement that succeeds; the database, the text format of instants and the text codes of enumerations are not modelled.
- StateStore.RuntimeStateStore.Restore: malformed session, belief or equity fields, which raise an error in the source, are not modelled; malformed positions are. Restored feature histories and previous state probabilities are not modelled.
- Supervision.Supervisor.Run: the feed of moments is finite, waiting and back-off take no time, stop requests arrive between cycles, and saves succeed; logging, alerts and heartbeats are not modelled.
- Density.QuantilesRiseAtEveryMoment: the square root is any strictly increasing time scale.
- Openings.EstimateIsAchievable: for a chain that quotes each contract once, unstressed costs and prices of at least one cent; rounding estimates to cents is covered by the margin of `Openings.CreditNeverOpens`.
- Supervision.CrashLosesFailedCycles: a crash between turns of the loop; one inside a turn also loses that turn.
- Exits.SimulateExits: structure values per path and step are inputs, not priced.
- Float rounding and the tolerances of the breakeven scan: arithmetic is exact and zero tests are exact.
- Runs.RunKeeps: the configured fee per contract is not negative; with a negative fee an entry commission could raise equity.
- Closings.BookedIsCashExactlyWhen: the manager and the broker use the same cost model and the reprice step is positive, as configured by default.
- Identifiers: order and position identifiers are fresh, as random ones are assumed to be.
- Option pricing, Greeks, implied volatility, Monte Carlo path generation and the forecast models: values they produce are inputs.
- The optimizer: any candidate or none, chosen from the risk budget.
- `DecisionPipeline.reset`, which clears the portfolio but not the broker's book, is not an event of a run.
- The forecast-based exit branch: the pipeline never passes a forecast to the exit check.
- Zero-expiry and aggregate-Greek exposure of the portfolio, which the checks do not read.
- `probability_of_profit`, payoff curves, confidence intervals of simulated outcomes, band and median tracks and smoothing of the density field: they would add only easy members.
- Audit records, providers, the user interface and the command line.
