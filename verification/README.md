# MaxTraderBot core in Dafny

MaxTraderBot trades perpetual futures on the AsterDEX exchange. A dual
moving-average strategy watches the closes of each symbol. It waits for the
averages to converge and then for a confirmed breakout, and opens a long or a
short. It closes the position when the averages converge again. Before an order
is placed, the trader consults the risk manager for sizing, filter validation
and an account risk grade. It can also consult an AI service (DeepSeek or
Grok) to confirm a low-confidence signal. A manual-order handler takes orders
from a small HTTP API and from a JSON order file, and watches the positions it
opened for their stop-loss and take-profit levels. Three AI helpers post-process
model answers into validated documents:
- the risk assessor;
- the position manager;
- the parameter optimiser.

This project models that core as pure Dafny functions over immutable data and
proves what the code promises about it. Time, the exchange, the AI services,
`json.loads`/`json.dumps`, numeric-string parsing and the signing cryptography
are parameters. Every call into them has its outcome given as an input: an
`Attempt` is `Ok(value)` or `Raised`, and Python exceptions become `Raised`.
JSON documents are the `Json` datatype, with objects as maps.

| file | module | models |
|---|---|---|
| wrappers.dfy | Wrappers | `Option` (Python's `None`) and `Attempt` (a value or a raised exception) |
| json.dfy | Json | decoded JSON, truthiness, `isinstance(x, (int, float))`, `int`, `float`, `dict.get`, clamping |
| text.dfy | Text | `in`, `find`, `rfind`, ASCII `lower`/`upper`, `split`, `join`, `replace` |
| indicators.dfy | Indicators | `src/strategies/indicators.py` |
| double_ma.dfy | DoubleMa | `src/strategies/double_ma.py` |
| risk.dfy | Risk | `src/trading/risk_manager.py` |
| trader.dfy | Trader | `src/trading/trader.py` |
| manual_orders.dfy | ManualOrders | `src/trading/manual_order_handler.py` |
| manual_api.dfy | ManualApi | `src/trading/manual_order_api.py` |
| asterdex.dfy | AsterDex | parameter preparation in `src/api/asterdex_client.py` |
| deepseek.dfy | DeepSeek | `src/api/deepseek_client.py` |
| base_ai.dfy | BaseAi | `src/api/base_ai_client.py` |
| risk_assessor.dfy | RiskAssessor | `src/ai/risk_assessor.py` |
| position_manager.dfy | PositionManager | `src/ai/position_manager.py` |
| parameter_optimizer.dfy | ParameterOptimizer | `src/ai/parameter_optimizer.py` |
| config.dfy | Config | `src/utils/config.py` |

The strategy state, the manual position map and the configuration singleton are
state passed in and returned: each operation is a step function that returns
its output together with the new state.

## Model

| member | source | states |
|---|---|---|
| Indicators.MeanWithin | src/strategies/indicators.py:27 | the exact mean of values within [lo, hi] lies within [lo, hi] |
| Indicators.MeanPositive | src/strategies/indicators.py:27 | the mean of strictly positive values is strictly positive |
| Indicators.Sma | src/strategies/indicators.py:24-27 | the SMA is 0 when the history is shorter than the period |
| Indicators.SmaWithin | src/strategies/indicators.py:24-27 | with enough history, the SMA times the period is the sum of the last `period` closes, and it lies within their range |
| Indicators.SmaPositive | src/strategies/indicators.py:24-27 | the SMA of enough positive closes is positive |
| Indicators.Alpha | src/strategies/indicators.py:46 | the smoothing factor of a span lies in (0, 1] |
| Indicators.Ema | src/strategies/indicators.py:41-42 | the EMA is 0 when the history is shorter than the period |
| Indicators.EmaLastWithin | src/strategies/indicators.py:44-47 | the recursive `ewm(adjust=False)` value is a convex combination, so it stays within the range of the data |
| Indicators.EmaWithin | src/strategies/indicators.py:41-47 | the EMA of enough history lies within the range of all closes |
| Indicators.Positives | src/strategies/indicators.py:97 | filtering keeps only strictly positive values and never lengthens the list |
| Indicators.PositivesOfPositive | src/strategies/indicators.py:97 | filtering an all-positive list returns it unchanged |
| Indicators.PositivesAppend | src/strategies/indicators.py:97 | filtering distributes over concatenation |
| Indicators.PositivesMultiset | src/strategies/indicators.py:97 | filtering keeps exactly the positive part of the multiset of values |
| Indicators.MaxOf | src/strategies/indicators.py:102 | `max` is an element of the list and bounds every element from above |
| Indicators.MinOf | src/strategies/indicators.py:103 | `min` is an element of the list and bounds every element from below |
| Indicators.ExtremaBySet | src/strategies/indicators.py:102-103 | lists with the same elements have the same `max` and `min` |
| Indicators.ConvergenceIff | src/strategies/indicators.py:93-110 | convergence holds iff at least two positive averages remain and (max - min) / max * 100 <= threshold; fewer than two positive averages never converge |
| Indicators.ConvergenceExample | src/strategies/indicators.py:102-110 | [100, 101, 102] converges at threshold 2.0 and not at 1.9 |
| Indicators.PositivesPermutation | src/strategies/indicators.py:97 | permuting the averages permutes the positive ones |
| Indicators.SameElements | src/strategies/indicators.py:102-103 | permutations have the same length and the same elements |
| Indicators.SpreadPermutation | src/strategies/indicators.py:98-110 | the spread verdict on the positive averages depends only on their multiset |
| Indicators.ConvergencePermutation | src/strategies/indicators.py:93-110 | the convergence verdict is invariant under permutation of the averages |
| Indicators.ConvergenceIgnoresNonPositive | src/strategies/indicators.py:97-110 | inserting a non-positive value anywhere does not change the convergence verdict |
| Indicators.PricePositionBands | src/strategies/indicators.py:136-144 | with a positive average the position is exactly one of ABOVE (price > 1.01 avg), BELOW (price < 0.99 avg) or CROSS, and it is monotone in the price |
| Indicators.CheckMaConvergence | src/strategies/indicators.py:79-110 | convergence holds only with at least two positive averages, a positive maximum and a spread of at most the threshold |
| Indicators.CheckPricePosition | src/strategies/indicators.py:113-144 | UNKNOWN exactly when no average is positive; otherwise ABOVE exactly above 1.01 times their mean and BELOW exactly below 0.99 times it |
| Indicators.CheckBreakout | src/strategies/indicators.py:147-174 | with two prices, an UP breakout holds exactly when the previous price is below and the current one above the mean, any other direction the reverse; fewer prices never break out |
| Indicators.CheckPriceStability | src/strategies/indicators.py:177-203 | stability needs at least `bars` prices, and with a positive count the last price is on the required side |
| Indicators.PricePositionUnknown | src/strategies/indicators.py:127-133 | the position is UNKNOWN exactly when no positive average remains |
| Indicators.BreakoutExclusive | src/strategies/indicators.py:163-174 | UP and DOWN breakouts never both hold, and neither holds with fewer than two prices |
| Indicators.LastN | src/strategies/indicators.py:198 | Python's `s[-n:]`: the last n elements for 0 < n <= len, the whole list for n = 0 |
| Indicators.StabilityIff | src/strategies/indicators.py:195-203 | for a positive bar count, stability holds iff there are enough prices and each of the last `bars` is strictly on the requested side |
| Indicators.ParseKlines | src/strategies/indicators.py:247-294 | parsing succeeds exactly when every row has at least seven fields with integers at 0 and 6 and floats at 1 to 5; then every column has one entry per row and entry i of each column is the converted field of row i; no rows give seven empty columns |
| DoubleMa.IntervalMinutes | src/strategies/double_ma.py:280-286 | every interval, known or not, has a positive candle length; unknown names count as 15 |
| DoubleMa.ConfirmationBars | src/strategies/double_ma.py:286-289 | the bar count is always at least 1 |
| DoubleMa.ConfirmationBarsFloor | src/strategies/double_ma.py:286-289 | the bar count is max(1, floor(minutes / interval minutes)) |
| DoubleMa.ConfirmationBarsExamples | src/strategies/double_ma.py:280-289 | 30 minutes: an unknown interval gives 2 bars, "1h" gives 1, "5m" gives 6 |
| DoubleMa.Distinct | src/strategies/indicators.py:66-74 | the dictionary keys of `ma_data` hold each configured period once, without repeats, in the order of first occurrence |
| DoubleMa.MaData | src/strategies/indicators.py:66-76 | `ma_data` has one entry per distinct period, the SMA ones first, and entry i has the kind and period of its position; each entry is the SMA or EMA of the closes for its period |
| DoubleMa.MaDataCoversSma | src/strategies/indicators.py:69-70 | an SMA period is configured exactly when its SMA entry is in `ma_data` |
| DoubleMa.MaDataCoversEma | src/strategies/indicators.py:73-74 | an EMA period is configured exactly when its EMA entry is in `ma_data` |
| DoubleMa.MaDataUnique | src/strategies/indicators.py:66-76 | no dictionary key occurs twice, and every SMA key comes before every EMA key |
| DoubleMa.MaDataOrder | src/strategies/indicators.py:69-74 | within one kind, keys keep the order in which their periods first occur in the configuration |
| DoubleMa.Values | src/strategies/double_ma.py:74 | the values of `ma_data`, one per entry, in order |
| DoubleMa.ConvergenceStep | src/strategies/double_ma.py:106-115 | the timestamp is present iff the evaluation converges; it is set to `now` when an episode starts and kept while it lasts; nothing else changes |
| DoubleMa.BreakoutStep | src/strategies/double_ma.py:190-200 | a breakout is recorded with direction and `now` only when a different direction was recorded and `check_breakout` fires; otherwise the state is unchanged |
| DoubleMa.GenerateSignal | src/strategies/double_ma.py:164-267 | the confidence is 50, 80 or 90; BUY/SELL only from no position and record one; CLOSE only from a position and clears it; HOLD keeps the position; the convergence timestamp is untouched |
| DoubleMa.Decide | src/strategies/double_ma.py:104-127 | the same action/position rules as `_generate_signal`, after the convergence update |
| DoubleMa.Analyze | src/strategies/double_ma.py:58-135 | without closes or positive averages: HOLD 0 and no state change; the confidence is in {0, 50, 80, 90}; only the analysed symbol's state changes; opens and closes move the recorded position as described |
| DoubleMa.NoClosesHold | src/strategies/double_ma.py:60-62 | no closes give HOLD with confidence 0 and create no state entry |
| DoubleMa.AverageIsBandMean | src/strategies/double_ma.py:74-93 | `ma_avg` is the mean the price bands use, and the averages are already positive |
| DoubleMa.ConvergenceTimestampRule | src/strategies/double_ma.py:106-115 | the timestamp is set to `now` on the first convergent evaluation, kept while convergence persists and cleared otherwise |
| DoubleMa.CloseRule | src/strategies/double_ma.py:167-178 | with a position and convergence the signal is CLOSE 80, clearing position and breakout but not the convergence timestamp |
| DoubleMa.BreakoutRecordRule | src/strategies/double_ma.py:171-239 | the breakout record changes only by a CLOSE or by a new breakout in a different direction stamped `now`; re-seeing the recorded direction keeps its time |
| DoubleMa.BuyIff | src/strategies/double_ma.py:181-225 | BUY 90 iff no position, convergent with a timestamp, price ABOVE, recorded direction UP, the last `bars` closes above the mean and enough minutes since the breakout; it records LONG |
| DoubleMa.Confirmed | src/strategies/double_ma.py:203-218 | a confirmed breakout has its direction and time recorded, enough closes for the confirmation bars, and at least the confirmation window elapsed since the breakout |
| DoubleMa.TryOpen | src/strategies/double_ma.py:203-264 | the opening step answers BUY on UP and SELL on DOWN exactly when the breakout, after this step's update, is confirmed, with confidence 90 and the position recorded; otherwise HOLD with confidence 50 and only the breakout update kept |
| DoubleMa.SellIff | src/strategies/double_ma.py:181-264 | the mirror of BUY for a confirmed downward breakout below the band; it records SHORT |
| DoubleMa.HoldConfidence | src/strategies/double_ma.py:266-267 | every evaluated path other than CLOSE, BUY and SELL is HOLD with confidence 50 |
| DoubleMa.ResetSymbolState | src/strategies/double_ma.py:310-323 | only an already-known symbol is reset to the fresh record; other symbols are untouched and no symbol is added |
| DoubleMa.StepEvent | src/strategies/double_ma.py:167-181 | an open needs no recorded position and records one; a recorded position survives every event but CLOSE and reset |
| DoubleMa.Run | src/strategies/double_ma.py:40-135 | a run produces one output per event |
| DoubleMa.RunUnfold | src/strategies/double_ma.py:40-135 | a run is its first step followed by the run from the state that step leaves |
| DoubleMa.NoOpenWhileHeld | src/strategies/double_ma.py:167-181 | while a position is recorded, every open is preceded by a CLOSE or reset |
| DoubleMa.OpensSeparated | src/strategies/double_ma.py:167-323 | two opens for a symbol are always separated by a CLOSE or a reset |
| DoubleMa.FirstOpenSeparated | src/strategies/double_ma.py:218-264 | after an opening first event, a later open needs a CLOSE or reset in between |
| Risk.WholeSteps | src/trading/risk_manager.py:109 | the whole number of steps in a non-negative amount fits in it and one more does not |
| Risk.Rem | src/trading/risk_manager.py:109 | the `Decimal` remainder of a non-negative amount by a positive step lies in [0, step) |
| Risk.RemOfMultiple | src/trading/risk_manager.py:171-173 | a whole number of steps leaves no remainder |
| Risk.RemZeroIsMultiple | src/trading/risk_manager.py:171-173 | a zero remainder means a whole number of steps |
| Risk.Field | src/trading/risk_manager.py:143-145 | an absent field reads as absent (its default applies); a present one must convert or the read raises |
| Risk.DecodeFilter | src/trading/risk_manager.py:138-181 | a filter entry that is not a dictionary makes `f.get` raise; a LOT_SIZE, PRICE_FILTER or MIN_NOTIONAL entry decodes to that filter, with its fields as read, exactly when its fields convert; an entry of any other type becomes the filter the checks ignore |
| Risk.DecodeFilters | src/trading/risk_manager.py:136 | decoding succeeds with one filter per entry, each the entry's decoding, or raises because some entry does |
| Risk.FirstLot | src/trading/risk_manager.py:98-111 | the LOT_SIZE filter used is the first one in the list; none is used iff there is none |
| Risk.Quantize | src/trading/risk_manager.py:105-109 | with a non-positive step only the clamp applies |
| Risk.ApplyLotSize | src/trading/risk_manager.py:96-113 | without a LOT_SIZE filter the quantity is unchanged; otherwise it is quantized by the first LOT_SIZE filter |
| Risk.FirstLotAppend | src/trading/risk_manager.py:98-111 | the LOT_SIZE filter found in a concatenated list is the first part's when it has one, else the second part's |
| Risk.LotSizeUsesFirst | src/trading/risk_manager.py:98-111 | the `break` after the first LOT_SIZE filter: filters after it do not change the quantity, and neither do the filters of other types before it |
| Risk.QuantizeOnGrid | src/trading/risk_manager.py:105-109 | the result is the whole number of steps in the clamped amount |
| Risk.ClampFacts | src/trading/risk_manager.py:105 | the clamp is at least minQty, at most a consistent maxQty, and never above a quantity that is at least minQty |
| Risk.QuantizeRange | src/trading/risk_manager.py:105-109 | the result is non-negative, at most the clamped amount and less than one step below it |
| Risk.GridFloorAbove | src/trading/risk_manager.py:107-109 | rounding down never drops an amount below a grid point it was above |
| Risk.QuantizeAboveMin | src/trading/risk_manager.py:105-109 | the result is at least minQty when minQty is itself on the step grid |
| Risk.QuantizeBounds | src/trading/risk_manager.py:105-109 | the result is a multiple of the step, at most maxQty, within one step of the clamped value, and at least minQty when minQty is on the grid |
| Risk.ViolationOf | src/trading/risk_manager.py:142-181 | a filter reports no violation iff the order satisfies it |
| Risk.ValidateOrder | src/trading/risk_manager.py:136-183 | valid iff every filter is satisfied; otherwise the reason is that of the first unsatisfied filter, in list order |
| Risk.FirstViolationShift | src/trading/risk_manager.py:138-183 | a first violation in the tail is the first violation of the whole list when the head is satisfied |
| Risk.ValidateOrderExample | src/trading/risk_manager.py:164-173 | with minQty and stepSize 0.001, quantity 0.0009 is rejected as too small and 0.001 passes |
| Risk.QuantizedSatisfiesLot | src/trading/risk_manager.py:159-173 | a quantized quantity passes the LOT_SIZE check of its filter when the step is positive, the range consistent and minQty on the grid |
| Risk.EffectiveLeverage | src/trading/risk_manager.py:55 | the leverage is `min(requested, max_leverage)` |
| Risk.CalculatePositionSize | src/trading/risk_manager.py:54-78 | sizing succeeds iff the price and capped leverage are non-zero (else division by zero raises); the leverage is capped and the quantity is the lot-filtered budget quantity |
| Risk.SizingConsistent | src/trading/risk_manager.py:70-71 | the notional is quantity times price, and margin times leverage is the notional |
| Risk.SizingSpendsBudget | src/trading/risk_manager.py:58-71 | without a LOT_SIZE filter the margin is exactly the budget `balance * pct / 100` |
| Risk.SizingWithinBudget | src/trading/risk_manager.py:58-109 | with a LOT_SIZE filter the margin lies between 0 and the budget |
| Risk.MarginBound | src/trading/risk_manager.py:58-71 | a quantity between 0 and the unfiltered one needs a margin between 0 and the budget |
| Risk.LotQuantityWithin | src/trading/risk_manager.py:105-109 | the lot filter never raises a quantity that is at least minQty and never makes it negative |
| Risk.StopLoss | src/trading/risk_manager.py:202-209 | for positive entry and percent, the stop is below the entry iff the side is "BUY" |
| Risk.TakeProfit | src/trading/risk_manager.py:228-235 | for positive entry and percent, the target is above the entry iff the side is "BUY" |
| Risk.StopTargetMirror | src/trading/risk_manager.py:202-235 | a long's stop is a short's target and vice versa, symmetric around the entry |
| Risk.RiskLevelMonotone | src/trading/risk_manager.py:291-296 | more margin in use or more positions never lowers the level |
| Risk.RiskLevelLowIff | src/trading/risk_manager.py:291-296 | LOW iff usage <= 50 and count <= 2; HIGH iff usage > 70 or count > 3 |
| Risk.MarginOf | src/trading/risk_manager.py:260-262 | with positive leverage the margin times the leverage is the absolute notional; with no positive leverage the margin is 0 |
| Risk.ExposureOf | src/trading/risk_manager.py:255-263 | the counted positions are at most the listed ones and their margin is non-negative; the exact count and margin are the lemma ExposureCounts |
| Risk.UsageBounds | src/trading/risk_manager.py:266-269 | with non-negative balance and margin, the usage is a percentage in [0, 100] |
| Risk.CheckPositionRisk | src/trading/risk_manager.py:252-278 | count and margin are those of the position scan, total balance is available plus margin, usage is margin over total times 100 (0 with no positive total) and lies in [0, 100] for non-negative available balance; the level is graded from usage and count; it raises exactly when reading a position does |
| Risk.ExposureCounts | src/trading/risk_manager.py:255-263 | the position scan succeeds exactly when every position reads; then it counts exactly the positions with a non-zero amount and sums their notional over leverage, an independent per-position definition |
| Risk.AssessRiskLevel | src/trading/risk_manager.py:280-296 | the level is LOW exactly when usage is at most 50 and there are at most two positions, and HIGH exactly when usage exceeds 70 or there are four or more |
| Risk.NoPositionsLowRisk | src/trading/risk_manager.py:252-278 | no positions give count 0, margin 0, usage 0 and LOW |
| Trader.FloatOr | src/trading/trader.py:199 | `float(x)` succeeds exactly when the value converts, and gives that value |
| Trader.UsdtBalance | src/trading/trader.py:197-201 | the first USDT entry's available balance is returned; a list of objects without USDT gives 0.0 |
| Trader.AvailableBalance | src/trading/trader.py:196-201 | an answer that is not a list gives 0.0; a list of non-USDT objects gives 0.0; when the first USDT entry comes after only non-USDT objects, its `availableBalance` read with `float` is returned |
| Trader.CurrentPosition | src/trading/trader.py:218-231 | the result is None exactly when every entry is an object for another symbol or has zero amount; otherwise the first entry for the symbol with a non-zero amount is reported with its amount, entry price, unrealized profit and side (BOTH by default), or the read raises |
| Trader.FindSymbol | src/trading/trader.py:76-80 | the first entry whose `symbol` matches is returned when every earlier entry is an object for another symbol; nothing is found exactly when every entry is such an object |
| Trader.FindSymbolRaises | src/trading/trader.py:76-80 | the search raises exactly when a non-object entry comes before any match |
| Trader.GetSymbolInfo | src/trading/trader.py:70-82 | a cached symbol is answered from the cache; a found entry is cached; the cache only grows, and a miss leaves it unchanged |
| Trader.CachedInfoWins | src/trading/trader.py:70-71 | once cached, the answer no longer depends on the exchange information |
| Trader.OpenPlan | src/trading/trader.py:254-292 | a plan that reaches the order has passed `validate_order` at the ticker price, with leverage capped at the maximum |
| Trader.OpenPosition | src/trading/trader.py:252-312 | the ticker is asked first; `place_order` is called (second and last) exactly when the plan succeeds, with the sized quantity, MARKET, position side BOTH and not reduce-only; an order is returned only if placing succeeds |
| Trader.ClosePosition | src/trading/trader.py:329-364 | one order call: SELL iff the amount is positive, else BUY, for the absolute amount, reduce-only, MARKET, position side BOTH; an order is returned only if placing succeeds |
| Trader.AiConfirmation | src/trading/trader.py:381-408 | either AI call raising yields the local action; otherwise the AI's action; the calls made are recorded |
| Trader.AiGate | src/trading/trader.py:170 | the AI is consulted only with a client and confidence below 90; otherwise the local action stands and no AI call is made |
| Trader.AccountOf | src/trading/trader.py:133-147 | the account is read exactly when the balance, the position and the risk check all are, and then it holds exactly their values |
| Trader.TickerPrice | src/trading/trader.py:254-255 | the price is read exactly when the ticker is an object whose `price` converts with `float`, and it is that value |
| Trader.AccountCalls | src/trading/trader.py:133-140 | gathering the account only asks for the balance and the positions, never places an order |
| Trader.Opening | src/trading/trader.py:158-180 | an order call is the last call; an order is returned only after placing succeeds; the AI is asked only with a client and confidence below 90 |
| Trader.Decide | src/trading/trader.py:149-180 | the same call-order facts for CLOSE, BUY and SELL once the account is known |
| Trader.ExecuteSignal | src/trading/trader.py:126-184 | HOLD returns None with no call; an order call is the last call; an order is returned only after placing succeeds; the AI is asked only with a client and confidence below 90 |
| Trader.CloseRule | src/trading/trader.py:150-155 | a CLOSE places an order iff the account is read and a non-zero position exists; the order is reduce-only, SELL iff the amount is positive, for the absolute amount |
| Trader.OpenRule | src/trading/trader.py:158-180 | an opening order is placed only with no position, risk not HIGH and a successful plan; it is a MARKET order on the signal's side, not reduce-only, for the sized quantity that passed every filter |
| Trader.OpenRuleConverse | src/trading/trader.py:158-180 | conversely, with the account read, no position, risk not HIGH, an AI answer other than HOLD and a successful plan, exactly the MARKET order on the signal's side for the sized quantity, position side BOTH, not reduce-only, is placed, and an order is returned exactly when placing succeeds |
| Trader.OpeningPlaces | src/trading/trader.py:169-180 | the same order facts for the opening step alone |
| Trader.HighConfidenceSkipsAi | src/trading/trader.py:170 | at confidence 90 or more the result equals the run without AI and no AI call is made |
| Trader.AiFailureFallsBack | src/trading/trader.py:400-408 | when either AI call raises, the order, the placed request and the cache equal those of the run without AI |
| Trader.PlacedAfter | src/trading/trader.py:133-140 | account-reading calls before a decision do not change which order was placed |
| Trader.DecideFallsBack | src/trading/trader.py:400-408 | the AI-failure fallback once the account is known |
| Trader.OpeningFallsBack | src/trading/trader.py:400-408 | the AI-failure fallback for the opening step alone |
| Trader.AiHoldVetoes | src/trading/trader.py:172-175 | an AI answer of HOLD on a low-confidence open places nothing |
| Trader.StrategyOpensSkipAi | src/trading/trader.py:170 | the strategy's BUY and SELL carry confidence 90, so they never reach the AI |
| Trader.DeepSeekOutageBlocksOpen | src/api/deepseek_client.py:102-108 | as written: with the DeepSeek service down, a low-confidence open places nothing |
| Trader.DeepSeekOutageFallsBack | src/trading/trader.py:400-408 | corrected: with a client that raises on failure, an outage yields the same order as the run without AI |
| ManualOrders.SideByName | src/trading/manual_order_handler.py:17-20 | `OrderSide[name]` resolves exactly the member names LONG and SHORT, whose values are the names themselves |
| ManualOrders.SourceByName | src/trading/manual_order_handler.py:23-28 | `OrderSource[name]` resolves exactly the member names API, WEBSOCKET, FILE and CLI |
| ManualOrders.ToDict | src/trading/manual_order_handler.py:52-64 | `to_dict` writes the nine fields, with the side and source enumeration values |
| ManualOrders.RealField | src/trading/manual_order_handler.py:72-75 | an optional number reads as absent exactly for null, and as its value for a number |
| ManualOrders.IntField | src/trading/manual_order_handler.py:73 | an optional integer reads as absent exactly for null, and as its value for an integer |
| ManualOrders.StrField | src/trading/manual_order_handler.py:76 | an optional text reads as absent exactly for null, and as its value for a string |
| ManualOrders.FromDict | src/trading/manual_order_handler.py:67-79 | a missing symbol or side raises; the side is the upper-cased name; the symbol is copied; an absent timestamp becomes `now` |
| ManualOrders.UpperOfSideValue | src/trading/manual_order_handler.py:71 | upper-casing a written side value gives it back |
| ManualOrders.DictRoundTrip | src/trading/manual_order_handler.py:52-79 | `from_dict(to_dict(o)) == o` for sources API, FILE and CLI; a WEBSOCKET order (written "WS") cannot be read back |
| ManualOrders.PnlPercent | src/trading/manual_order_handler.py:100-105 | the profit percentage is defined exactly when the entry price is non-zero |
| ManualOrders.PnlMirror | src/trading/manual_order_handler.py:100-105 | LONG and SHORT see opposite returns; a long gains iff the price rose above a positive entry |
| ManualOrders.Thresholds | src/trading/manual_order_handler.py:292-307 | a stop (target) price exists exactly when its percentage is set and non-zero |
| ManualOrders.ShouldClose | src/trading/manual_order_handler.py:107-122 | a position closes only with a set stop-loss or take-profit, and closes whenever the price reaches a set level on its side: LONG at or below the stop or at or above the target, SHORT the reverse |
| ManualOrders.Round | src/trading/manual_order_handler.py:263-265 | rounding to n digits moves the value by at most half a unit in the last digit |
| ManualOrders.ThresholdsExample | src/trading/manual_order_handler.py:292-307 | LONG at 50000 with 2% and 5% gives 49000 and 52500; SHORT gives 51000 and 47500; a zero or absent percent gives none |
| ManualOrders.ThresholdsStartQuiet | src/trading/manual_order_handler.py:107-123 | thresholds from percentages in (0, 100) never fire at the entry price |
| ManualOrders.ShouldCloseMonotone | src/trading/manual_order_handler.py:110-112 | once a long's stop fires, it fires at every lower price too |
| ManualOrders.Invoke | src/trading/manual_order_handler.py:240 | calling a method the client does not define raises; a defined one gives the exchange's answer |
| ManualOrders.LastPrice | src/trading/manual_order_handler.py:240-241 | the price is read exactly when the ticker method answers an object whose price key is present and converts, and it is that converted value; with the ticker method missing from the client, reading raises |
| ManualOrders.LeverageOf | src/trading/manual_order_handler.py:244 | the order's leverage when truthy, else the default |
| ManualOrders.RawQuantity | src/trading/manual_order_handler.py:252-259 | a truthy order quantity is used as given |
| ManualOrders.DefaultQuantitySpendsShare | src/trading/manual_order_handler.py:256-259 | the default quantity times the price is the balance share times the leverage |
| ManualOrders.RoundHalfEven | src/trading/manual_order_handler.py:265 | rounding to an integer moves a value by at most one half |
| ManualOrders.RoundWithin | src/trading/manual_order_handler.py:264-265 | `round(x, n)` moves a value by at most half a unit in the n-th place |
| ManualOrders.RoundToWithin | src/trading/manual_order_handler.py:265 | rounding to a grid of 1/s moves a value by at most 0.5/s |
| ManualOrders.OpenQuantity | src/trading/manual_order_handler.py:252-265 | a sized quantity exists only when the unrounded quantity could be computed |
| ManualOrders.Prepare | src/trading/manual_order_handler.py:240-265 | the steps before the order use the chosen leverage and the ticker's last price, need the symbol setup to succeed, and raise when the ticker method is missing |
| ManualOrders.Execute | src/trading/manual_order_handler.py:226-331 | a position is added, under the truthy `orderId` only, with the order's symbol, side, leverage, note, the ticker price and thresholds from the percentages; otherwise the map is unchanged; the order is MARKET on BUY for LONG and SELL for SHORT, not reduce-only |
| ManualOrders.AsWrittenNeverOpens | src/trading/manual_order_handler.py:240 | as written: the client defines no `get_ticker`, so no manual order ever opens and nothing changes |
| ManualOrders.IntendedOpens | src/trading/manual_order_handler.py:273-322 | corrected: with the client's own method names and an order answered with an id, the position is tracked under that id |
| ManualOrders.IntendedReadsTicker | src/api/asterdex_client.py:216-230 | with the client's own names, a ticker answer `{symbol, price}` from `get_ticker_price` is priced at its converted `price` |
| ManualOrders.CloseRequest | src/trading/manual_order_handler.py:390-398 | the closing order is reduce-only, on the opposite side, for the whole quantity |
| ManualOrders.CloseManual | src/trading/manual_order_handler.py:384-418 | the entry is removed only after a successful order call; a failure leaves the handler unchanged |
| ManualOrders.CloseById | src/trading/manual_order_handler.py:488-504 | an unknown id answers false and changes nothing; the answer is true iff the id is known and its price can be read, and then the position is closed |
| ManualOrders.TextIdNeverFound | src/trading/manual_order_handler.py:490-492 | with integer position ids, a text id is never found |
| ManualOrders.Priced | src/trading/manual_order_handler.py:350-354 | a position can be priced only when its entry price is non-zero |
| ManualOrders.MonitorTick | src/trading/manual_order_handler.py:343-382 | a tick that fails to price some position changes nothing; otherwise positions are only removed, each exactly when its trigger fired and its close succeeded; survivors are unchanged |
| ManualOrders.QuietPositionSurvives | src/trading/manual_order_handler.py:357-376 | a position whose price reached neither threshold survives the tick |
| ManualOrders.ManualPositions | src/trading/manual_order_handler.py:468-486 | the listing shows a subset of the tracked positions, each with its price and profit, and all of them when every one can be priced |
| ManualOrders.Mark | src/trading/manual_order_handler.py:456 | a marked entry is processed |
| ManualOrders.MarkedCons | src/trading/manual_order_handler.py:446-456 | one settled entry in front of a settled rewrite keeps the rewrite settled |
| ManualOrders.ScanEntries | src/trading/manual_order_handler.py:446-456 | at most one execution per entry, each as a FILE order; a completed scan leaves every entry processed or undecodable; with recovery the scan always completes |
| ManualOrders.ScanFile | src/trading/manual_order_handler.py:441-460 | an empty list truncates the order list and writes nothing, executes nothing and leaves the handler unchanged; otherwise the file is rewritten exactly when it has entries, as the marked list when there is more than one and as the single marked entry otherwise |
| ManualOrders.SettledScanIdle | src/trading/manual_order_handler.py:446-453 | a file of processed or undecodable entries executes nothing and leaves the handler unchanged |
| ManualOrders.RescanExecutesNothing | src/trading/manual_order_handler.py:446-460 | scanning a rewritten file again executes nothing |
| ManualOrders.ScanAbortReexecutes | src/trading/manual_order_handler.py:446-460 | as written: a new order followed by an undecodable entry is executed, the file is not rewritten, and the next scan executes the order again |
| ManualOrders.OrderThenBadEntry | src/trading/manual_order_handler.py:446-456 | a scan of [new order, undecodable entry] executes exactly one order and completes only with recovery |
| ManualOrders.RecoveringScanSettles | src/trading/manual_order_handler.py:446-460 | corrected: skipping the undecodable entry, the file is rewritten with the order marked and a rescan executes nothing |
| ManualApi.JsonResponse | src/trading/manual_order_api.py:25-31 | every JSON response carries its status, its document and `Access-Control-Allow-Origin: *` |
| ManualApi.Health | src/trading/manual_order_api.py:155-161 | `/health` is always 200 with the number of tracked positions, 0 without a handler |
| ManualApi.Positions | src/trading/manual_order_api.py:163-184 | `/positions` is 503 exactly without a handler, else 200 with the count of listed positions |
| ManualApi.DoGet | src/trading/manual_order_api.py:50-65 | GET is 404 exactly for paths other than `/`, `/health` and `/positions`; `/` is the HTML page; every JSON answer carries the CORS header |
| ManualApi.ParseBody | src/trading/manual_order_api.py:33-40 | a missing Content-Length means an empty body, parsed as `{}` |
| ManualApi.HasKey | src/trading/manual_order_api.py:200-207 | `key in data` on a decoded object is key membership |
| ManualApi.CheckOrder | src/trading/manual_order_api.py:196-220 | a rejection is 400 or 500; an accepted request has a symbol and a side that upper-cases to LONG or SHORT; an unparsable body is 400 |
| ManualApi.OrderOf | src/trading/manual_order_api.py:223-232 | an order is built exactly when the symbol is a string and every optional field is absent, null or of the carried type; it has the request's symbol and side, comes from the API, is stamped `now`, and carries the given quantity, leverage, stop-loss and take-profit percentages and note, each unset when absent |
| ManualApi.CreateOrder | src/trading/manual_order_api.py:186-260 | 503 without a handler; the status is 200, 400, 500 or 503; a failure leaves the positions unchanged; 200 carries the order id under which exactly one position was added |
| ManualApi.ClosePosition | src/trading/manual_order_api.py:262-283 | 503 without a handler; otherwise 200 iff `close_position_by_id` answered true, else 404, with the handler it left |
| ManualApi.LastSegment | src/trading/manual_order_api.py:74 | the id taken from the path contains no '/' |
| ManualApi.Post | src/trading/manual_order_api.py:67-80 | `/order` creates an order, any path starting `/close/` closes by its last segment, any other path is 404 with nothing changed; every JSON answer carries the CORS header |
| ManualApi.LastSegmentIsSuffix | src/trading/manual_order_api.py:74 | the id is the suffix of the path after its last '/' (`/close/a/b` gives `b`) |
| ManualApi.EmptyBodyMissingSymbol | src/trading/manual_order_api.py:35-37 | an empty body (length 0 or absent) is refused with 400 "Missing required field: symbol" |
| ManualApi.AsWrittenOrdersFail | src/trading/manual_order_api.py:235-249 | as written: with the handler's client method names, every valid order request answers 500 and tracks nothing |
| ManualApi.CloseByTextIdNotFound | src/trading/manual_order_api.py:272-283 | as written: with integer order ids, closing by the URL's text id answers 404 and changes nothing |
| ManualApi.KeyOf | src/trading/manual_order_api.py:74 | a decimal id denotes the integer it spells |
| ManualApi.ClosePositionByKey | src/trading/manual_order_api.py:262-283 | corrected close: 503 without a handler; otherwise 200 iff the position under the id read back as an integer was closed, else 404 |
| ManualApi.CloseByKeyFindsOrder | src/trading/manual_order_api.py:272-278 | corrected: the id `/order` returned closes its position with 200 |
| AsterDex.NewClient | src/api/asterdex_client.py:20-42 | a new client keeps its user and signer and has a receive window of 50000 |
| AsterDex.Trim | src/api/asterdex_client.py:55-70 | trimming keeps the keys, makes every value a string, and leaves string values as they were |
| AsterDex.InPlace | src/api/asterdex_client.py:91 | after trimming the shallow copy, top-level scalars are unchanged, a dictionary value is trimmed in place with the same keys, and a list keeps its length |
| AsterDex.WithoutNone | src/api/asterdex_client.py:86 | a key survives exactly when its value is not None, with its value unchanged |
| AsterDex.Stamped | src/api/asterdex_client.py:86-88 | the non-None keys plus `recvWindow` and `timestamp`, which overwrite any caller value; no value is None |
| AsterDex.SigningString | src/api/asterdex_client.py:94 | the signing string contains no space and no single quote; every other character of the key-sorted dump survives in it, and a dump with neither character is signed as it is |
| AsterDex.Signature | src/api/asterdex_client.py:97-113 | the signature text starts with "0x" |
| AsterDex.SignStamped | src/api/asterdex_client.py:91-115 | the signed map adds nonce, user, signer and a signature over the trimmed stamped map; other values are the stamped ones as trimming left them in place |
| AsterDex.SignRequest | src/api/asterdex_client.py:83-115 | the result holds exactly the non-None input keys plus recvWindow, timestamp, nonce, user, signer and signature, with the given window, clock readings and identity, a "0x" signature, and every other value as trimming left it in place |
| AsterDex.SignsTrimmedStamp | src/api/asterdex_client.py:91-113 | the signature is a function of the trimmed stamped parameters, the nonce and the keys |
| AsterDex.TrimIdempotent | src/api/asterdex_client.py:55-70 | trimming an already trimmed map changes nothing |
| AsterDex.NoneIsAbsent | src/api/asterdex_client.py:86 | a None-valued parameter signs exactly like an absent one |
| AsterDex.ScalarsKept | src/api/asterdex_client.py:91 | without dictionaries or lists among the values, the caller's values come back unchanged |
| AsterDex.NestedTrimmedInPlace | src/api/asterdex_client.py:61-67 | a dictionary value comes back trimmed in place: same keys, every value a string |
| AsterDex.KlinesParams | src/api/asterdex_client.py:203-212 | symbol, interval and limit always; `startTime`/`endTime` exactly when truthy, so 0 is omitted |
| AsterDex.SymbolParams | src/api/asterdex_client.py:226-228 | the optional symbol is sent exactly when given and non-empty, and nothing else |
| AsterDex.MarketOrder | src/api/asterdex_client.py:274-284 | a market order takes the defaults: position side BOTH, GTC, not reduce-only, no price |
| AsterDex.OrderParams | src/api/asterdex_client.py:301-314 | `reduceOnly` and `positionSide` are always sent; `price` exactly when truthy; `timeInForce` exactly for LIMIT; no other keys |
| AsterDex.OrderParamsPresent | src/api/asterdex_client.py:301-314 | no order parameter is None, so signing drops none of them |
| AsterDex.SignedOrder | src/api/asterdex_client.py:301-316 | a signed order holds the order keys plus the signing keys, with `reduceOnly` and `positionSide` as set |
| AsterDex.SignedMarketOrder | src/api/asterdex_client.py:301-316 | a signed market order carries no price and no time in force, and is not reduce-only |
| DeepSeek.ParseTextResponse | src/api/deepseek_client.py:160-190 | on the lower-cased text: BUY exactly when a buy keyword occurs, SELL exactly when no buy but a sell keyword occurs, HOLD otherwise; confidence 80 exactly when a strong word occurs, 30 exactly when no strong but a weak word occurs, 50 otherwise; the text itself is the reason |
| DeepSeek.KeywordsIgnoreCase | src/api/deepseek_client.py:170-183 | the text is lower-cased before matching, so a buy keyword in any letter case gives BUY, a sell keyword gives SELL unless a buy keyword is present (buy wins), and a strong keyword gives confidence 80 |
| DeepSeek.CountPresent | src/api/deepseek_client.py:259-260 | the keyword count never exceeds the number of keywords |
| DeepSeek.CountIsDistinctKeywords | src/api/deepseek_client.py:259-260 | the count is the number of distinct keywords that occur, not the number of occurrences |
| DeepSeek.ExtractSentiment | src/api/deepseek_client.py:243-266 | BULLISH exactly when more distinct bullish than bearish keywords occur in the lower-cased text, BEARISH exactly when more bearish ones do, NEUTRAL otherwise |
| DeepSeek.AnalyzeTradingSignal | src/api/deepseek_client.py:85-108 | a failed call gives HOLD with confidence 0, a JSON object answer is read with the defaults HOLD and 50, and a non-JSON answer goes through the keyword classifier |
| DeepSeek.AnalyzeTradingSignalOrRaise | src/api/deepseek_client.py:102-108 | corrected client: a failed call raises to the caller, and any answer it does return is the one the original client gives |
| DeepSeek.GetMarketSentiment | src/api/deepseek_client.py:229-241 | a failed call reports NEUTRAL, and a successful one reports the extracted sentiment with the answer as the analysis |
| BaseAi.ChatArguments | src/api/base_ai_client.py:73-82 | the call always carries the model, the messages, the temperature and max_tokens, and carries response_format exactly when one is given and truthy |
| BaseAi.Prefix | src/api/base_ai_client.py:148 | `s[:n]` is the longest prefix of s that has at most n characters |
| BaseAi.ErrorObject | src/api/base_ai_client.py:145-149 | the error object has exactly the keys error and raw_content, and raw_content is a prefix of the answer of at most 200 characters |
| BaseAi.Span | src/api/base_ai_client.py:139 | the slice `content[start:end+1]` is that substring, or empty when the end comes before the start |
| BaseAi.RecoverJson | src/api/base_ai_client.py:134-149 | an answer that lacks a `{` or a `}` gives the error object |
| BaseAi.RecoverJsonSpan | src/api/base_ai_client.py:136-140 | when both braces occur in order, exactly the text from the first `{` through the last `}` is parsed |
| BaseAi.RecoverJsonReversedBraces | src/api/base_ai_client.py:136-149 | when the last `}` comes before the first `{`, the slice is empty and the result is the error object |
| BaseAi.ChatCompletionJson | src/api/base_ai_client.py:111-149 | an answer to the JSON-format call that parses is returned; otherwise a second, plain call is made, its failure propagates, and its answer is mined for JSON |
| BaseAi.OrDefault | src/api/base_ai_client.py:210-219 | `x or default` keeps a truthy x and otherwise gives the default |
| BaseAi.CreateAiClient | src/api/base_ai_client.py:180-226 | there is no client for an empty config or a falsy api_key; otherwise it raises exactly when the provider is not text, and gives a client exactly for `deepseek` or `grok` in any case; the client carries the lower-cased provider, the key, the timeout (default 30), a truthy configured base URL and model, and otherwise the provider's default URL and model |
| BaseAi.CreateAiClientDefaults | src/api/base_ai_client.py:155-165 | an api_key alone gives a DeepSeek client with the DeepSeek base URL, the deepseek-chat model and a 30-second timeout |
| BaseAi.CreateAiClientProviderCase | src/api/base_ai_client.py:201 | the provider name is lower-cased, so "GROK" selects the Grok client with its defaults |
| RiskAssessor.OverallRisk | src/ai/risk_assessor.py:202-207 | the overall risk always ends up an integer in [1, 10]: 5 when it is not a number, otherwise its integer part clamped |
| RiskAssessor.RealField | src/ai/risk_assessor.py:218-234 | a float adjustment always ends up in [lo, hi]: an in-range number is kept, a number below lo becomes lo and one above hi becomes hi, and a missing or non-numeric one becomes the default |
| RiskAssessor.IntField | src/ai/risk_assessor.py:224-228 | an integer adjustment always ends up in [lo, hi]: a number whose `int` part is in range becomes that integer, one below lo becomes lo and one above hi becomes hi, and a missing or non-numeric one becomes the default |
| RiskAssessor.FixAdjustment | src/ai/risk_assessor.py:209-234 | an adjustment block is corrected exactly when it is a dictionary; the corrected block has all three adjustments in range and keeps its other keys |
| RiskAssessor.FixRecommendation | src/ai/risk_assessor.py:236-256 | a recommendation block is corrected exactly when it is a dictionary; a valid action is kept, and action, reason and conditions are always present |
| RiskAssessor.ValidateAssessment | src/ai/risk_assessor.py:198-258 | validation succeeds exactly when any adjustment and recommendation blocks present are dictionaries; the result is valid, adds only those two blocks, leaves every other field unchanged and keeps an in-range risk |
| RiskAssessor.WithOverall | src/ai/risk_assessor.py:201-207 | only overall_risk changes, it ends up in range, and an in-range value is kept |
| RiskAssessor.WithBlocks | src/ai/risk_assessor.py:209-256 | storing the corrected blocks gives a valid assessment and leaves every other field unchanged |
| RiskAssessor.ValidatedIsFixed | src/ai/risk_assessor.py:198-258 | the validator leaves an already valid assessment unchanged |
| RiskAssessor.ValidateIdempotent | src/ai/risk_assessor.py:198-258 | validating twice gives the same result as validating once |
| RiskAssessor.Conservative | src/ai/risk_assessor.py:260-288 | the fallback assessment is valid: risk 7, proceed with caution, a 0.7 size multiplier, leverage 3 and the standard stop |
| RiskAssessor.AssessTradingRisk | src/ai/risk_assessor.py:95-118 | the result is always valid; a failed call, a non-dictionary answer, an error answer or one missing overall_risk gives the conservative assessment, and anything else is the validated answer |
| RiskAssessor.AssessValidatedAnswer | src/ai/risk_assessor.py:95-114 | an answer that is already valid is returned as it is |
| RiskAssessor.AssessInvalid | src/ai/risk_assessor.py:106-118 | an answer with `overall_risk` and no `error` whose blocks the validator rejects gives the conservative assessment, and the rejection is a non-dictionary adjustment or recommendation block |
| RiskAssessor.SizeMultiplierFloor | src/ai/risk_assessor.py:222 | a size multiplier below 0.3 is clamped to 0.3, not to the 0.5 the prompt asks for |
| PositionManager.Percentage | src/ai/position_manager.py:203-210 | PARTIAL_CLOSE and ADD get a percentage in [10, 100] (50 when none is given), and every other action gets 0 |
| PositionManager.Fill | src/ai/position_manager.py:212-228 | filling a missing key adds only that key and changes no existing field |
| PositionManager.WithAction | src/ai/position_manager.py:198-210 | the action is kept when valid and becomes HOLD otherwise; the percentage follows the action, and nothing else changes |
| PositionManager.FillDetails | src/ai/position_manager.py:212-228 | the reason and the stop and target updates are added when missing, with the no-change defaults, and existing fields are kept |
| PositionManager.FixAlerts | src/ai/position_manager.py:230-232 | alerts always end up a list: a list is kept, and anything else becomes empty |
| PositionManager.ValidateRecommendation | src/ai/position_manager.py:195-234 | the result is valid, and its action is the given one when valid and HOLD otherwise |
| PositionManager.ValidateKeeps | src/ai/position_manager.py:195-234 | the validator adds exactly the six fields it fills and leaves every other field unchanged |
| PositionManager.ValidateFills | src/ai/position_manager.py:212-232 | missing stop and target updates get the no-change defaults, and a given list of alerts is kept |
| PositionManager.ValidatedIsFixed | src/ai/position_manager.py:195-234 | the validator leaves an already valid recommendation unchanged |
| PositionManager.ValidateIdempotent | src/ai/position_manager.py:195-234 | validating twice gives the same result as validating once |
| PositionManager.Default | src/ai/position_manager.py:236-251 | the fallback recommendation is valid: HOLD, percentage 0 and one alert asking for manual monitoring |
| PositionManager.MonitorPosition | src/ai/position_manager.py:79-104 | the result is always valid; a prompt that cannot be built, a failed call or an answer that is not a dictionary gives the default; with a built prompt and a dictionary answer, the result is the default when the answer carries `error` and the validated answer otherwise |
| PositionManager.MonitorValidatedAnswer | src/ai/position_manager.py:96-104 | an answer that is already a valid recommendation and has no `error` is returned exactly as the AI gave it |
| PositionManager.VisitOf | src/ai/position_manager.py:272-283 | a position is monitored exactly when it is a dictionary with a string symbol, an amount that converts to a non-zero value and a non-zero price for that symbol; a zero amount is skipped; reading fails exactly when the position is not a dictionary, lacks a symbol, has an amount that does not convert, or has a non-zero amount and an unhashable symbol |
| PositionManager.Amount | src/ai/position_manager.py:276 | an absent `positionAmt` reads as 0, and a present one is converted with `float` |
| PositionManager.Batch | src/ai/position_manager.py:253-300 | no positions give no recommendations |
| PositionManager.BatchValidated | src/ai/position_manager.py:290-298 | every stored recommendation is valid |
| PositionManager.BatchRaises | src/ai/position_manager.py:272-277 | the batch raises exactly when some position has no readable symbol or amount |
| PositionManager.BatchKeys | src/ai/position_manager.py:271-295 | a symbol has a recommendation exactly when some position of that symbol is monitored |
| PositionManager.BatchLastWins | src/ai/position_manager.py:290-295 | a symbol's recommendation comes from the last monitored position with that symbol |
| PositionManager.Rank | src/ai/position_manager.py:317-340 | the symbol and recommendation are kept, and the priority is FULL_CLOSE 10, PARTIAL_CLOSE 8, ADD 5 and anything else 1, plus 2 exactly when the alerts are truthy |
| PositionManager.Insert | src/ai/position_manager.py:343 | insertion adds exactly one entry and loses none |
| PositionManager.InsertSorted | src/ai/position_manager.py:343 | insertion keeps a list sorted by priority, highest first |
| PositionManager.ConsSorted | src/ai/position_manager.py:343 | an entry ranked at least as high as the whole of a sorted list can go in front of it |
| PositionManager.WithPriorityCons | src/ai/position_manager.py:343 | the entries of one priority in a list with an entry in front are that entry, if it has the priority, followed by the rest's entries |
| PositionManager.InsertKeepsOrder | src/ai/position_manager.py:343 | inserting puts the new entry in front of the entries of its own priority and keeps their order |
| PositionManager.SortByPriority | src/ai/position_manager.py:343 | the sort is a permutation sorted by priority, highest first |
| PositionManager.SortIsStable | src/ai/position_manager.py:343 | the sort is stable: entries of each priority keep their input order |
| PositionManager.Ranking | src/ai/position_manager.py:317-340 | each recommendation is ranked in its own position in the list |
| PositionManager.PrioritizeActions | src/ai/position_manager.py:302-345 | every recommendation appears exactly once, highest priority first |
| PositionManager.PrioritizeIsStable | src/ai/position_manager.py:343 | recommendations of equal priority keep the order they were given in |
| PositionManager.FullCloseWithAlertsFirst | src/ai/position_manager.py:321-343 | when there is a full close with alerts, the first entry has the top priority, 12 |
| PositionManager.ExchangePositionGetsDefault | src/ai/position_manager.py:272-298 | as written, a monitored position in the exchange's shape, without entry_price, always gets the default recommendation |
| PositionManager.ExchangePositionMonitored | src/ai/position_manager.py:272-298 | corrected: reading the exchange's keys, such a position gets the validated AI answer |
| ParameterOptimizer.Keep | src/ai/parameter_optimizer.py:208-214 | a section filled in for a missing one suggests exactly the current value, or the default when there is none |
| ParameterOptimizer.ClampedReal | src/ai/parameter_optimizer.py:222-225 | clamping succeeds exactly when the section is a dictionary whose suggestion converts to a float; the suggestion is then replaced by that value clamped to [lo, hi], and the section's other fields are kept |
| ParameterOptimizer.ClampedInt | src/ai/parameter_optimizer.py:234-237 | clamping succeeds exactly when the section is a dictionary whose suggestion converts to an integer; the suggestion is then replaced by that value clamped to [lo, hi], and the section's other fields are kept |
| ParameterOptimizer.Suitability | src/ai/parameter_optimizer.py:278 | suitability always ends up in [0, 1]: a value strictly inside is kept, and the bounds come back as the integers 0 and 1 |
| ParameterOptimizer.FixAssessment | src/ai/parameter_optimizer.py:273-287 | the assessment is fixed exactly when it is a dictionary; a missing suitability becomes 0.7 and a numeric one is clamped to [0, 1]; a missing or invalid recommendation becomes KEEP_CURRENT and a valid one is kept; other keys are kept |
| ParameterOptimizer.UnknownAssessment | src/ai/parameter_optimizer.py:264-271 | the assessment filled in for a missing one is valid, recommends KEEP_CURRENT and has suitability 0.7 |
| ParameterOptimizer.RealSection | src/ai/parameter_optimizer.py:216-225 | a float section is handled exactly when it is missing or its suggestion converts; a missing one keeps the current value, and a present one has its suggestion replaced by the clamped value |
| ParameterOptimizer.IntSection | src/ai/parameter_optimizer.py:228-261 | an integer section is handled exactly when it is missing or its suggestion converts; a missing one keeps the current value, and a present one has its suggestion replaced by the clamped value |
| ParameterOptimizer.ClampSectionsAs | src/ai/parameter_optimizer.py:216-261 | the four numeric sections are handled exactly when each is missing or readable, and each ends up kept or replaced and clamped to its own range and default |
| ParameterOptimizer.ClampSections | src/ai/parameter_optimizer.py:216-261 | every parameter section given in the answer ends up with a suggestion inside its range, and a missing leverage keeps the current one; the exact kept or clamped values are the lemma ClampSectionsAs |
| ParameterOptimizer.Assemble | src/ai/parameter_optimizer.py:207-293 | the result has the answer's keys plus the seven sections, with every other field of the answer unchanged |
| ParameterOptimizer.ValidateOptimization | src/ai/parameter_optimizer.py:200-293 | the result is valid and adds only the seven sections; threshold, period, leverage and size suggestions given in the answer end up in [0.5, 5], [300, 3600], [1, 10] and [10, 40]; a missing leverage keeps the current one; a list of triggers is kept; a non-dictionary assessment raises; when it succeeds and what each section becomes is the lemma ValidateOptimizationAs |
| ParameterOptimizer.ValidateOptimizationAs | src/ai/parameter_optimizer.py:200-293 | validation succeeds exactly when the numeric sections are readable and the assessment is missing or a dictionary; then `ma_periods` is passed through or kept, each numeric section is kept or clamped, and the assessment is the unknown one or the fixed one |
| ParameterOptimizer.DefaultOptimization | src/ai/parameter_optimizer.py:295-331 | the default optimisation is valid |
| ParameterOptimizer.DefaultShape | src/ai/parameter_optimizer.py:295-331 | the default has exactly the seven sections and recommends keeping the current strategy |
| ParameterOptimizer.DefaultSuggestsCurrent | src/ai/parameter_optimizer.py:298-322 | in the default, every parameter's current value is the caller's value for it, or its own default ([20, 60, 120], 2.0, 1800, 5 or 30) when the caller has none, and the suggestion equals that current value |
| ParameterOptimizer.OptimizeParameters | src/ai/parameter_optimizer.py:85-101 | the result is always valid; a failed call or an error answer gives the default, and anything else that is not the default is the validated answer |
| ParameterOptimizer.OptimizeNonObject | src/ai/parameter_optimizer.py:85-101 | an answer that is not a dictionary gives the default optimisation |
| ParameterOptimizer.OptimizeValidated | src/ai/parameter_optimizer.py:85-101 | an answer without `error` that validates gives exactly the validated optimisation |
| ParameterOptimizer.OptimizeInvalid | src/ai/parameter_optimizer.py:85-101 | an answer whose validation raises gives the default optimisation |
| ParameterOptimizer.ShouldApply | src/ai/parameter_optimizer.py:333-362 | an optimisation is applied exactly when its assessment carries a recommendation other than CONSIDER_ALTERNATIVE and KEEP_CURRENT; a missing assessment is not applied, and a non-dictionary one raises |
| ParameterOptimizer.ShouldApplyValidated | src/ai/parameter_optimizer.py:333-362 | a validated optimisation is applied exactly when it recommends ADJUST_PARAMS |
| ParameterOptimizer.AppliedOnlyWhenAdjusting | src/ai/parameter_optimizer.py:38-101 | whatever the AI answered, the optimiser's result is applied only when it recommends ADJUST_PARAMS, and never after a failed call |
| Config.Lookup | src/utils/config.py:46-55 | no segments give the document itself, a missing segment or a non-dictionary on the way gives the default, and otherwise the lookup descends one level |
| Config.Get | src/utils/config.py:35-55 | an undotted key reads its single entry; a key that is the `.`-join of a non-empty list of segments without `.` reads exactly the nested path those segments spell |
| Config.LookupPut | src/utils/config.py:46-55 | looking up a path returns the value stored there, whatever the default |
| Config.StoredNullIsReturned | src/utils/config.py:49-53 | a stored null comes back as null, not as the default, because only missing keys give the default |
| Config.PutElsewhere | src/utils/config.py:46-55 | storing at one path leaves a path that branches off it at the first segment unchanged |
| Config.Section | src/utils/config.py:57-85 | a section is the stored value, or an empty dictionary when absent, which is what a one-segment lookup gives; a document that is not a dictionary raises |
| Config.GetConfig | src/utils/config.py:89-107 | the first call loads from the given path or the default one, succeeds exactly when that load does and keeps the loaded configuration; later calls return the kept configuration, and a failed load keeps nothing |
| Config.FirstCallWins | src/utils/config.py:102-107 | after a successful first call, every later call returns the same configuration, whatever path it passes |
| Text.ContainsIffOccurs | src/api/deepseek_client.py:174 | `sub in s` holds exactly when some window of s equals sub |
| Text.Lower | src/api/deepseek_client.py:170 | lower-casing keeps the length and maps each character separately |
| Text.Upper | src/trading/manual_order_handler.py:71 | upper-casing keeps the length and maps each character separately |
| Text.LowerKeepsOccurrence | src/api/deepseek_client.py:170-183 | a substring still occurs once both strings are lower-cased |
| Text.Find | src/api/base_ai_client.py:136 | `find` gives -1 exactly when the character is absent, and otherwise its first position |
| Text.RFind | src/api/base_ai_client.py:137 | `rfind` gives -1 exactly when the character is absent, and otherwise its last position |
| Text.FindIsFirst | src/api/base_ai_client.py:136 | the first position holding the character is what `find` answers |
| Text.RFindIsLast | src/api/base_ai_client.py:137 | the last position holding the character is what `rfind` answers |
| Text.Split | src/utils/config.py:46 | splitting gives at least one part, and no part contains the separator |
| Text.SplitJoin | src/utils/config.py:46 | joining the parts of a split with the separator gives the original string |
| Text.SplitCons | src/utils/config.py:46 | splitting a separator-free head, the separator and a tail gives the head followed by the parts of the tail |
| Text.JoinSplit | src/utils/config.py:46 | splitting parts joined with the separator gives the parts back, when no part contains the separator |
| Text.Replace | src/api/asterdex_client.py:94 | a string without the character is unchanged; every other character of the input survives; replacing with text that lacks the character removes it and adds nothing new; deleting never lengthens the string |
| Text.ReplaceAppend | src/api/asterdex_client.py:94 | replacing distributes over concatenation |
| Text.ReplaceChar | src/api/asterdex_client.py:94 | a single character becomes the replacement text when it is the replaced one, and is kept otherwise |
| Json.Trunc | src/ai/risk_assessor.py:207 | `int` of a float truncates toward zero |
| Json.Float | src/ai/parameter_optimizer.py:225 | `float` converts numbers to their value and strings through the literal reader, and raises on null, lists and dictionaries |
| Json.Get | src/ai/parameter_optimizer.py:350 | `d.get(k, default)` gives the stored value when the key is present and the default otherwise |
| Json.Strings | src/ai/position_manager.py:250 | a list of strings becomes a JSON array of those strings, in order |
| Json.Int | src/ai/parameter_optimizer.py:237 | `int` truncates numbers, reads strings through the integer reader, and raises on null, lists and dictionaries |
| Json.ClampInt | src/ai/risk_assessor.py:207 | `max(lo, min(hi, x))` lies in [lo, hi], keeps an x inside, and gives the nearer bound otherwise |
| Json.ClampReal | src/ai/risk_assessor.py:222 | `max(lo, min(hi, x))` on floats lies in [lo, hi], keeps an x inside, and gives the nearer bound otherwise |

## Left out

- Network transport is not modelled: the exchange's `_request`, the OpenAI-compatible chat calls and the HTTP server's start and stop. The outcome of each call is an input (`Attempt` values, or the `Venue` and exchange oracles).
- ABI encoding, Keccak-256, Ethereum message signing, `json.dumps`, `str` and `json.loads` are parameters, because they are foreign code. The model proves what the code does around them, not what they compute.
- Threads, `time.sleep`, modification-time polling and file reads and writes are not modelled. The position monitor and the file watcher are modelled as one tick and one scan of a file's decoded contents.
- Concurrency is not modelled. The position map is shared without locks by the monitor, the watcher and the HTTP workers, and the model makes no thread-safety claim.
- Wall-clock time (`datetime.now`, `time.time`) and the signing nonce are parameters.
- DoubleMa.Analyze: `analyze` and `_generate_signal` each read the clock. The model uses one `now` for both, which ignores the microseconds between the two reads.
- Floating point is replaced by exact reals. NumPy means are exact means, `Decimal` arithmetic is exact, and NaN and infinities do not occur.
- Indicators.Sma: the period is a positive integer. In the source a period of 0 passes the length check and `data[-0:]` averages the whole list. The model does not cover a zero period.
- Indicators.Ema: the span is a positive integer. In the source a span of 0 makes `ewm` raise, which the model does not cover.
- Indicators.Ema: the pandas `ewm(span, adjust=False)` value is its defining recursion over reals. Its rounding error is not modelled.
- The ATR indicator (`calculate_atr`) is not modelled. Nothing in the core uses it.
- `calculate_all_mas` is modelled only as the `ma_data` that the strategy builds: DoubleMa.MaData.
- ManualOrders.Round: Python's `round(x, 6)` on binary floats becomes half-even rounding over exact reals. That it is idempotent is not proved.
- ManualOrders.FromDict: the order record has typed fields. A field of the wrong JSON type is rejected as undecodable, where Python would carry the value along until a later use fails.
- ManualApi.OrderOf: a `symbol` that is not a string, or an optional field of a type the order record does not carry (`"note": 7`, `"leverage": 5.0`), gives no order. Python builds the order from such values and may go on to place it.
- ManualApi.CreateOrder: for the requests OrderOf cannot read, the model answers 500 "Failed to create order" and places nothing, where Python may place the order.
- Text.Lower and Text.Upper change ASCII letters only. Python case-maps all of Unicode, but every keyword and side name in the core is ASCII or caseless.
- Messages that the source writes in Chinese are replaced by short English texts in the model, where only their presence matters. The DeepSeek keywords keep the source's characters, because the result depends on them.
- DeepSeek.AnalyzeTradingSignal: the failure reason is the prefix `API 调用失败` of the source's text only. The exception's message, which the source appends after `: `, is not modelled, because the failing call is an input without a message.
- Dictionary insertion order is not modelled: JSON objects are maps. PositionManager.PrioritizeActions therefore takes the recommendations as a list in dictionary order.
- ManualApi.Positions: the answer of `/positions` is modelled by its status code and its position count. The list of positions it carries is not modelled.
- The body of the index HTML page is not modelled. Only its status code and content type are.
- The `market_context` arguments of the AI helpers and the trader are not modelled. They only feed prompt text.
- All prompt builders (`_build_*_prompt`) and `src/ai/market_intelligence.py` are not modelled: they build text, or return stub data around an AI call.
- `src/main.py` (scheduler, signal handlers, bootstrap), logging and the `__init__.py` re-exports are not modelled.
- Config.GetConfig: `_load_config` (opening and parsing the file) is the `load` parameter.
- PositionManager.Batch: each symbol's AI answer is given by one function of the symbol. A second position of the same symbol therefore sees the same answer as the first, which the later call may not.
- PositionManager.Batch: its own contract states only the empty case. Validity, the key set, the raise condition and last-wins are the lemmas BatchValidated, BatchKeys, BatchRaises and BatchLastWins.
- ParameterOptimizer.DefaultOptimization: its own contract states only validity. The seven sections and the kept values are the lemmas DefaultShape and DefaultSuggestsCurrent.
- ParameterOptimizer.ValidateOptimization: a missing section is filled with the current value as given, without clamping, as the source does.
- ParameterOptimizer.ShouldApply: the `significance_threshold` argument of `should_apply_optimization` is not modelled, because the source never reads it.
- ManualOrders.ScanEntries: one `Venue` oracle answers all the exchange calls of a scan. The exchange is assumed not to change state between two orders of one file.
- Risk.DecodeFilters: the symbol's filters are decoded before they are checked. A malformed filter that comes after a violated one therefore raises in the model, where the source reports the violation first. Both outcomes place no order in the trader.
- ManualOrders.Execute: when the sizing raises after `get_symbol_info` has filled the trader's symbol cache, the model returns the handler with its earlier cache, where Python keeps the new entry. A later lookup of that symbol then asks the exchange again, which gives the same answer while the exchange information is unchanged.
- Trader.ExecuteSignal: log messages and the `signal['reason']` text are not modelled.

## Findings

| source | as written | input that shows it | evidently intended | confidence | as-written member | corrected member |
|---|---|---|---|---|---|---|
| src/api/deepseek_client.py:102-108 | `analyze_trading_signal` catches every exception itself and answers HOLD with confidence 0, so the trader's fallback in `_get_ai_confirmation` (src/trading/trader.py:400-408) never runs. An AI outage then vetoes every low-confidence open. | a BUY signal with confidence 70, a configured DeepSeek client, and a chat call that raises | an AI failure keeps the local action and the open proceeds, as the trader's comment and the fallback test describe | medium; not executed | Trader.DeepSeekOutageBlocksOpen | Trader.DeepSeekOutageFallsBack |
| src/trading/manual_order_handler.py:446-460 | in the file scan, an entry that `from_dict` cannot decode raises out of the loop after the earlier orders have executed. The file is then never rewritten, so those orders are not marked processed. | a file holding a new valid order followed by `{}`: each scan executes the valid order again | bad entries are skipped, and executed orders are marked and written back, so a rescan executes nothing | high; not executed | ManualOrders.ScanAbortReexecutes | ManualOrders.RecoveringScanSettles |
| src/trading/manual_order_handler.py:240 | `execute_manual_order` calls `get_ticker`, `get_account` and `create_order` on the exchange client, which defines `get_ticker_price`, `get_account_info` and `place_order` instead. It also reads the ticker's `lastPrice`, where the client's ticker endpoint answers `price`. The first call raises `AttributeError`, and the handler answers None. | any manual order, with the real AsterDEX client | the handler uses the client's own methods and opens the position | high; not executed | ManualOrders.AsWrittenNeverOpens | ManualOrders.IntendedOpens |
| src/trading/manual_order_api.py:272-283 | positions are stored under the exchange's `orderId`, an integer in the exchange's JSON. `/close/{id}` passes the URL segment as text, so the lookup never matches and answers 404. | open an order answered with `orderId` 42, then POST `/close/42` | the id that `/order` returned closes its position with 200 | medium; not executed | ManualApi.CloseByTextIdNotFound | ManualApi.CloseByKeyFindsOrder |
| src/ai/position_manager.py:272-298 | `batch_monitor_positions` filters on the exchange's `positionAmt`, but `_build_monitoring_prompt` reads `entry_price` and `position_amt`. A position in the exchange's shape raises a `KeyError` inside `monitor_position` and always gets the default recommendation. | one exchange position `{"symbol": "BTCUSDT", "positionAmt": "0.01", "entryPrice": "50000"}` with a price for BTCUSDT | the prompt reads the exchange's keys, so the AI's validated answer is used | medium; not executed | PositionManager.ExchangePositionGetsDefault | PositionManager.ExchangePositionMonitored |
