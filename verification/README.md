# thetagang decision core in Dafny

This project models the pure decision core of thetagang, an automated options
"wheel" trading bot. The core has six rules. They read the bot's configuration
and snapshots of the brokerage account.

- **Trading gate** (`Config.trading_is_allowed`): a configured symbol may be
  traded unless its `no_trading` flag is set.
- **Delta resolver** (`Config.get_target_delta`): the target option delta for a
  symbol and a right (put or call). The first present value wins, from the most
  specific level to the least:
  1. the symbol's `puts`/`calls` override;
  2. the symbol's own `delta`;
  3. the global `puts`/`calls` override;
  4. the global `delta`.
- **Position PnL** (`position_pnl`): unrealized PnL divided by the cost basis
  `averageCost × |position|`. No contract multiplier enters: the brokerage's
  average cost of an option already includes it.
- **Net short count** (`calculate_net_short_positions`): option positions are
  netted per group (expiration, strike, right). The result is the number of
  groups of the requested right whose net quantity is negative.
- **Weighted-average strike** (`weighted_avg_short_strike`,
  `weighted_avg_long_strike`): select the options of one right held short (or
  long), then average their strikes weighted by absolute quantity.
- **Order pricing guard** (`would_increase_spread`): moving a buy order's limit
  down, or a sell order's limit up, widens the spread the order has to cross.

Files:

- `wrappers.dfy`: `Option` and `Result`.
- `broker.dfy`: the parts of the brokerage's records that the core reads
  (contract, portfolio item, order).
- `config.dfy`: module `Configuration`, with the configuration model, the
  trading gate and the delta resolver.
- `util.dfy`: module `Util`, with the position analytics and the pricing guard.
- `examples.dfy`: module `Scenarios`, with the configurations, positions and
  orders of the repository's unit tests and the outcomes those tests expect.

The implementation modules `thetagang/config.py` and `thetagang/util.py` are not
part of this model's sources. Their behaviour is pinned down by the unit tests
`thetagang/test_config.py` and `thetagang/test_util.py`. Each scenario row
below cites the test lines whose assertion it restates. Each general row cites
the tests it generalises: the property holds for every input, and those tests
are instances of it. A row that begins "Not exercised by a test" or "Not a test
assertion" states something no test checks. It cites the tests that build the
inputs or call the function it is about. Where the tests leave a case open, the
model makes the outcome an explicit error value rather than guessing a number.
These cases are an unknown symbol, no delta at any level, a zero cost basis and
an empty selection.

## Model

| member | source | states |
|---|---|---|
| Configuration.TradingIsAllowed | thetagang/test_config.py:21-28 | A configured symbol may be traded exactly when its `no_trading` flag is clear. Asking about an unconfigured symbol, and only that, is an `UnknownSymbol` error. |
| Configuration.TradingGateReadsOnlyNoTrading | thetagang/test_config.py:11-28 | Two configurations that agree on a symbol's `no_trading` flag give the same verdict for it, whatever their weights, targets and other symbols. |
| Configuration.FirstPresent | thetagang/test_util.py:125-164 | Reference definition of "the first present value of an ordered list of overrides": it is absent exactly when every entry is absent, and otherwise it is the entry at the first present index. |
| Configuration.GetTargetDelta | thetagang/test_util.py:125-164 | An unknown symbol is an `UnknownSymbol` error. A configured symbol always resolves when the global delta is set. For a valid configuration the result lies in (0, 1]. |
| Configuration.GetTargetDeltaIsFirstPresent | thetagang/test_util.py:125-164 | The resolver fails exactly when all four override levels are absent. Otherwise it returns the first present level, most specific first. |
| Configuration.FirstPresentLevelWins | thetagang/test_util.py:132-164 | When level i is the first present level, the resolver returns level i's value, whatever the less specific levels hold. |
| Util.PositionPnl | thetagang/test_util.py:34-122 | The ratio times the cost basis `averageCost × \|position\|` gives back the unrealized PnL. It is a `ZeroCostBasis` error exactly when that basis is zero. |
| Util.PnlReadsOnlyCostAndSize | thetagang/test_util.py:34-122 | Positions with equal unrealized PnL, average cost and absolute size have equal ratios. Direction and contract play no part, so neither does the multiplier of 100. |
| Util.PnlHasSignOfUnrealizedPnl | thetagang/test_util.py:34-122 | With a positive average cost and a non-zero position, the ratio is defined and is negative (or positive) exactly when the unrealized PnL is. |
| Util.NetShortCount | thetagang/test_util.py:191-248 | Reference definition of the count: the number of groups of the requested right whose net quantity is negative. It is positive exactly when the group of some position of that right nets short, and it never exceeds the number of positions. |
| Util.CalculateNetShortPositions | thetagang/test_util.py:191-248 | The one-pass map accumulation counts exactly the groups of the requested right whose net quantity, summed over the whole portfolio, is negative. |
| Util.NegativeNetHasShortLeg | thetagang/test_util.py:197-209 | A group that nets short holds at least one short position. |
| Util.NoShortLegNoNetShort | thetagang/test_util.py:199-205 | A portfolio with no short position of the queried right has no net short group of that right, whatever it holds of the other right: the short put beside a long call counts zero for calls. |
| Util.OtherRightNeverCounts | thetagang/test_util.py:199-205 | Adding a stock, or an option of the other right, leaves the counted groups unchanged. |
| Util.OffsettingPairCancels | thetagang/test_util.py:207-209 | Adding a short and a long of equal size in the same group leaves the counted groups unchanged. |
| Util.LongNeverAddsShortGroup | thetagang/test_util.py:211-248 | Adding a long position never adds a net short group. |
| Util.LongInNewGroupChangesNothing | thetagang/test_util.py:211-238 | A long at an expiration or strike not yet held leaves the counted groups unchanged. |
| Util.NetOfPermutation | thetagang/test_util.py:191-248 | Not exercised by a test: no two tests list the same positions in different orders. Any two listings of the same positions (equal as multisets) give every group the same net quantity. |
| Util.NetShortCountOrderInsensitive | thetagang/test_util.py:191-248 | Not exercised by a test: no two tests list the same positions in different orders. Any two listings of the same positions (equal as multisets) have the same counted groups, and so the same count: any reordering of the portfolio, not only a rotation. |
| Util.SelectionMembers | thetagang/test_util.py:251-258 | The selection contains the leg of every qualifying position (right matches, quantity has the requested sign), and nothing else. |
| Util.SelectionEmptyIffNoneQualify | thetagang/test_util.py:251-258 | The selection is empty exactly when no position qualifies. |
| Util.SelectionConcat | thetagang/test_util.py:251-258 | Selecting from two lists joined together gives the two selections joined together. |
| Util.Average | thetagang/test_util.py:251-258 | The average times the total weight gives back the sum of strike × weight. Legs whose weights sum to zero have no average. For the selections averaged here, whose weights are all positive, that means an empty selection. |
| Util.WeightedAvgStrike | thetagang/test_util.py:251-258 | It is a `NoQualifyingPositions` error exactly when no position qualifies. Otherwise the result times the total absolute quantity of the selection is the sum of strike × absolute quantity over it. |
| Util.WeightedAvgShortStrike | thetagang/test_util.py:251-257 | `WeightedAvgStrike` with the side fixed to Short. It is a `NoQualifyingPositions` error exactly when no option of the right is held short. Otherwise the result times the total absolute short quantity is the sum of strike × absolute quantity over the short positions of the right. |
| Util.WeightedAvgLongStrike | thetagang/test_util.py:258 | `WeightedAvgStrike` with the side fixed to Long. It is a `NoQualifyingPositions` error exactly when no option of the right is held long. Otherwise the result times the total long quantity is the sum of strike × quantity over the long positions of the right. |
| Util.StrikeTotalAtLeast | thetagang/test_util.py:251-258 | Legs whose strikes are all at least `lo` and whose weights are non-negative have a strike total of at least `lo` times their total weight. |
| Util.StrikeTotalAtMost | thetagang/test_util.py:251-258 | The same with every strike at most `hi`: the total is at most `hi` times the weight. |
| Util.WeightedAvgWithinStrikeRange | thetagang/test_util.py:251-258 | The weighted average lies between the least and the greatest strike of the qualifying positions. |
| Util.WeightedAvgOfOneStrike | thetagang/test_util.py:251-258 | When some position qualifies and all qualifying positions share one strike, the average is that strike, whatever else the portfolio holds. |
| Util.NonQualifyingIgnored | thetagang/test_util.py:251-258 | A position of the other right or the other sign may be inserted anywhere without changing the average. |
| Util.SelectionSkipsNonQualifying | thetagang/test_util.py:251-258 | The selection passes over a position of the other right or the other sign, wherever it sits in the list. |
| Util.WouldIncreaseSpread | thetagang/test_util.py:261-300 | True exactly when the new price is less aggressive than the limit. For a buy that means lower; for a sell, higher. |
| Util.SpreadGuardBuySellMirror | thetagang/test_util.py:261-300 | A buy at a limit judges a move like a sell at the negated limit judges the negated move. |
| Util.SpreadGuardStrictAndReversible | thetagang/test_util.py:261-300 | Not exercised by a test: no test keeps the price at the limit or reverses a move. Keeping the price never widens the spread. A move that widens it is not widening when reversed. |
| Util.SpreadGuardSidesDisagree | thetagang/test_util.py:261-300 | For any actual change of price, exactly one of buy and sell sees the spread widen. |
| Scenarios.GateBlocksFlaggedSymbol | thetagang/test_config.py:21-23 | A symbol flagged `no_trading` is not allowed to trade. |
| Scenarios.GateAllowsUnflaggedSymbol | thetagang/test_config.py:26-28 | A symbol without the flag is allowed to trade. |
| Scenarios.DeltaFromGlobalDefault | thetagang/test_util.py:125-130 | With only a global delta of 0.5, puts and calls both get 0.5. |
| Scenarios.DeltaFromGlobalPutOverride | thetagang/test_util.py:132-139 | A global puts override of 0.4 wins for puts. |
| Scenarios.DeltaFromGlobalCallOverride | thetagang/test_util.py:141-151 | A global calls override of 0.4 wins for calls; puts keep 0.5. |
| Scenarios.DeltaFromSymbolDelta | thetagang/test_util.py:153-155 | The symbol's delta of 0.3 beats the global calls override. |
| Scenarios.DeltaFromSymbolPutOverride | thetagang/test_util.py:157-164 | The symbol's puts override of 0.2 wins for puts; calls keep the symbol's 0.3. |
| Scenarios.PnlOfLosingShortPut | thetagang/test_util.py:35-56 | The QQQ short put's ratio rounds to -0.85. |
| Scenarios.PnlOfStockPosition | thetagang/test_util.py:58-76 | The ratio of the 100 SPY shares rounds to -0.0079. |
| Scenarios.PnlOfWinningShortCall | thetagang/test_util.py:78-99 | The SPY short call's ratio rounds to 0.52. |
| Scenarios.PnlOfLosingShortSpyPut | thetagang/test_util.py:101-122 | The SPY short put's ratio rounds to -0.13. |
| Scenarios.NetShortSingleShortPut | thetagang/test_util.py:197 | One short put counts one net short put. |
| Scenarios.NetShortCallDoesNotCoverPut | thetagang/test_util.py:199-205 | A long call at the put's strike leaves one net short put and no net short call. |
| Scenarios.NetShortCoveredCall | thetagang/test_util.py:207-209 | A short call and a long call in the same group count zero. |
| Scenarios.NetShortCoveredCallWithFarLong | thetagang/test_util.py:211-218 | An extra long call at a later expiration keeps the count at zero. |
| Scenarios.NetShortCoveredCallBesidePut | thetagang/test_util.py:220-228 | With a short put beside them, the calls still count zero. |
| Scenarios.NetShortCoveredCallBesidePutOtherStrike | thetagang/test_util.py:230-238 | The same with the far long call at another strike. |
| Scenarios.NetShortPartlyCovered | thetagang/test_util.py:240-248 | Two short calls and one long call in a group, plus a long elsewhere, count one. |
| Scenarios.AvgStrikeBothShortCalls | thetagang/test_util.py:252-253 | With a short call at 50 and a short put at 40, the short calls average 50. |
| Scenarios.AvgStrikeBothShortPuts | thetagang/test_util.py:252-254 | In the same portfolio the short puts average 40. |
| Scenarios.AvgStrikeShortIgnoresLong | thetagang/test_util.py:256-257 | A long put beside a short call at 50 is ignored: the short-call average is 50. |
| Scenarios.AvgStrikeLongIgnoresOtherRight | thetagang/test_util.py:258 | A long call at 50 beside a long put at 40 is ignored: the long-put average is 40. |
| Scenarios.AvgStrikeWeightsByQuantity | thetagang/test_util.py:251-258 | Not a test assertion: every test position has size 1. It shows the \|quantity\| weighting of the averaged function: short calls of sizes 1 and 3 at strikes 40 and 60 average to 55. |
| Scenarios.DeltaMissingEverywhere | thetagang/test_config.py:16 | Not a test assertion: the cited line only builds a target without a delta. It shows the model's own decision that, with no level present, the resolver returns a `NoTargetDelta` error. |
| Scenarios.GateRejectsUnknownSymbol | thetagang/test_config.py:17 | Not a test assertion: the cited line only builds the single-symbol map. It shows the model's own decision that asking the gate about another symbol is an `UnknownSymbol` error. |
| Scenarios.SpreadGuardCases | thetagang/test_util.py:261-300 | The eight buy/sell cases with limits ±10 and new prices ±5 or ±15. |

## Left out

- `thetagang/buy_funds.py`: the one-shot fund-buying script is network I/O (broker connection, account summary, market data, order placement, printing). No decision rule of the core lives there.
- The brokerage library's classes (`PortfolioItem`, `Option`, `Stock`, `Order`) are reduced to the fields the core reads. These are expiration, strike, right, multiplier, position, average cost, unrealized PnL, action and limit price.
- Floating point: prices, quantities and ratios are exact `real`s. The tests compare after `round` or `math.isclose`. The example lemmas state an interval of width one rounding unit instead, e.g. -0.855 < ratio < -0.845 for -0.85.
- Date arithmetic: the tests build expirations from today's date plus 3 and 30 days. The model treats expirations as opaque strings that are equal or not ("exp3" and "exp30").
- The account, option-chain and roll-when settings (`margin_usage`, `expirations`, `strikes`, `dte`, `minimum_open_interest`) are carried as plain fields. No modelled rule reads them.
- Configuration loading and validation: `Configuration.Valid` states what a loaded configuration is assumed to satisfy (deltas in (0, 1], positive counts). The loader itself is not part of this model.
- Configuration.TradingIsAllowed: the tests only ask about configured symbols. The model answers an unconfigured symbol with an `UnknownSymbol` error instead of assuming the caller never asks.
- Configuration.GetTargetDelta: the tests always set the global delta. With no level present at all the model returns a `NoTargetDelta` error.
- Util.PositionPnl: a zero cost basis is a `ZeroCostBasis` error. The tests never divide by zero.
- Util.WeightedAvgStrike: an empty selection is a `NoQualifyingPositions` error. The tests always select at least one position.
- Util.WouldIncreaseSpread: the tests never move the price to the limit itself. The model compares strictly, so an unchanged price never widens the spread.
- Util.CalculateNetShortPositions: counts groups (expiration, strike, right) with a negative net, not contracts. Every test's net short group holds exactly one contract net, so the tests cannot tell the two apart.
