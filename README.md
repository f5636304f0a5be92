# TradeSense challenge engine in Dafny

This project models the evaluation engine of the TradeSense prop-trading platform and proves
properties about it. A trader buys a challenge tier. The challenge record holds a balance, an
equity, a high-water mark, a start-of-day balance and three limits. Every trade moves equity
and balance by its PnL. The record is then re-evaluated: a total-loss or daily-loss breach
fails the challenge, and reaching the profit target passes it.

The engine exists twice:

- **Client side** (`frontend/services/challengeService.ts`). This is pure code, modelled as
  functions over the `Types.Challenge` datatype in the `ChallengeEngine` module.
- **Server side** (`backend/*.py`). The server mutates the challenge dict in place. It is
  modelled by the class `ServerRecord.ChallengeRecord`, whose fields mirror the dict's keys.
  The methods `TradeService.ExecuteTrade`, `ChallengeEvaluator.EvaluateAfterTrade` and
  `TradingDay.CheckAndResetTradingDay` update the record in place. Each is proved equal to a
  pure specification function of the old state: `ExecuteTradeSpec`, `DeriveStatus` and
  `DayRoll`. The lemmas are stated about those functions.

The lemmas also prove that the two copies agree:

- `EvaluatorsAgree` and `StatusRulesAgree`: both copies derive the same status.
- `ServerMatchesClient`: an executed server trade gives the record that the client's
  `applyTrade` gives.
- `ClientSignalImpliesServerSignal`: for positive prices, a client BUY or SELL signal is also
  the server's signal.

The smaller rule sets are modelled one module each. State is a class wherever the source
updates it in place:

- moving-average signals: `MarketSignal`, `SignalService`, with moving averages in `Series`
- market-data validator: `MarketValidator`
- trade rate limiter: a class in `RateLimiter`
- news classifiers: `News`
- leaderboard merge: a method with its loops in `Leaderboard`
- card form: `CardForm`
- academy quiz: a class in `MasterClass`

Model conventions:

- Money, prices and elapsed seconds are mathematical `real`s.
- A clock reading is an `Instant`: whole seconds since the epoch, UTC. Its day is
  `t / 86400`.
- Clock reads, the random slippage, generated ids, the reference traders and the request body
  are parameters. The project has no I/O of its own.

Where the code and its documentation differ, the model follows the code:

- **Short price history.** With fewer than 20 prices, the client signal's reason is
  `'Analyzing market depth...'` (`MarketSignal.CalculateSignal`).
- **No status guard in `applyTrade`.** It re-derives the status of a record in any state, so a
  FAILED challenge that books enough profit comes out PASSED
  (`ChallengeEngine.FailedChallengeCanStillPass`). On the server, `execute_trade` refuses
  every record that is not ACTIVE (`TradeService.TerminalRecordIsFrozen`).
- **No input errors on the client.** The TypeScript engine has no invalid-tier or invalid-PnL
  errors. Only the server route rejects an unknown plan.
- **Two tier tables.** The server table is not the client table: STARTER is 5000 on the server
  and 10000 on the client. The server creates challenges directly in ACTIVE state; the client
  creates them in PENDING_PAYMENT.
- **Dead band on negative prices.** The client's ±0.05% dead band is multiplicative. A flat
  series of negative values is therefore a BUY (`MarketSignal.FlatNegativeSeriesBuys`).
- **Integrity check.** `verify_challenge_integrity` always answers true, because its
  comparison is commented out.
- **Trade side.** In `execute_trade`, any side other than `"BUY"` is booked as a short.

## Model

| member | source | states |
|---|---|---|
| ChallengeEngine.InitialConfig | frontend/services/challengeService.ts:4-8 | In every client tier, the target and the total-loss limit are 10% of the balance and the daily limit is 5%. STARTER is 10000. |
| ChallengeEngine.CreateChallenge | frontend/services/challengeService.ts:15-35 | A new challenge is PENDING_PAYMENT. The five balances equal the tier balance and the three limits come from the tier. Both timestamps are the creation time. No rule fires on it. |
| ChallengeEngine.CreationIsDeterministic | frontend/services/challengeService.ts:15-35 | Two creations for the same tier and user differ only in id and timestamps. |
| ChallengeEngine.ActivateChallenge | frontend/services/challengeService.ts:37-43 | The status becomes ACTIVE and updatedAt the clock reading. Every other field is unchanged. |
| Types.TotalLossBreached | frontend/services/challengeService.ts:57-61 | The total loss, initial balance minus equity, is at or over its limit. The iffs of NextStatus, DeriveStatus and StatusRulesAgree are stated with it. |
| Types.DailyLossBreached | frontend/services/challengeService.ts:58-61 | The daily loss, start-of-day balance minus equity, is at or over its limit. Used in the same contracts. |
| Types.ProfitTargetMet | frontend/services/challengeService.ts:63 | The profit, equity minus initial balance, is at or over the target. Used in the same contracts. |
| ChallengeEngine.NextStatus | frontend/services/challengeService.ts:56-65 | Any loss breach gives FAILED, even when the target is met. Otherwise a met target gives PASSED. Otherwise the status is kept. Thresholds are inclusive. |
| ChallengeEngine.ApplyTrade | frontend/services/challengeService.ts:45-68 | Equity and balance both move by exactly `pnl`, so their difference is invariant. The new maxEquity is the larger of the old mark and the new equity. Loss takes precedence over profit. PASSED only without a breach. Nothing else changes. |
| ChallengeEngine.ApplyAllInvariants | frontend/services/challengeService.ts:45-68 | Over any sequence of trades, equity and balance move by the total PnL, and equity minus balance is constant. The high-water mark never falls and stays at least the equity. Anchors and limits are never written. |
| ChallengeEngine.MaxEquityIsHighWaterMark | frontend/services/challengeService.ts:52 | After any sequence of trades, maxEquity is at least every earlier mark and every equity reached on the way. |
| ChallengeEngine.FailedChallengeCanStillPass | frontend/services/challengeService.ts:60-65 | A FAILED STARTER record that books a profit of 1000 with no breach comes out PASSED, because there is no terminal guard. |
| ChallengeEngine.ScenarioDailyLossAtLimitFails | frontend/services/challengeService.ts:57-62 | A daily loss exactly at the 500 limit fails the challenge: the equity is 9500 and the status FAILED. |
| ChallengeEngine.ScenarioProfitTargetPasses | frontend/services/challengeService.ts:63-64 | Profits of +300 and then +750 reach the 1000 target: the equity is 11050 and the status PASSED. |
| ChallengeEngine.ScenarioHighWaterMarkHolds | frontend/services/challengeService.ts:52 | After +200 and then -150, the mark stays at 10200 while the equity is 10050. |
| ChallengeEvaluator.DeriveStatus | backend/challenge_evaluator.py:9-30 | Total loss at or over its limit gives FAILED, and so does daily loss at or over its limit. PASSED only with neither breach and with the target met (or the status already PASSED). No breach with the target met gives PASSED. No rule firing keeps the status. |
| ChallengeEvaluator.EvaluateAfterTrade | backend/challenge_evaluator.py:32-33 | Only the status field of the record is written, with the derived status. The same record is returned. |
| ChallengeEvaluator.EvaluatorsAgree | frontend/services/challengeService.ts:46-67 | The status from applyTrade equals the status evaluate_after_trade derives from the same post-trade record. |
| ChallengeEvaluator.StatusRulesAgree | backend/challenge_evaluator.py:23-30 | The Python if/elif chain and the TypeScript status rule agree on every record. |
| TradeService.ExitPrice | backend/trade_service.py:53 | The exit price is the entry price moved by the slippage fraction. PnlWithinSlippage bounds its effect. |
| TradeService.SimulatedPnl | backend/trade_service.py:56-62 | BUY earns exit minus entry per unit; any other side earns the reverse. SellIsNegatedBuy and PnlWithinSlippage are stated about it. |
| TradeService.SellIsNegatedBuy | backend/trade_service.py:57-62 | For the same prices and size, the SELL PnL is the negation of the BUY PnL. |
| TradeService.PnlWithinSlippage | backend/trade_service.py:52-62 | With slippage within ±0.1%, the PnL of either side is at most 0.1% of the traded notional. |
| TradeService.DailyReset | backend/trade_service.py:39-44 | When the stored day differs from today, the day becomes today and the start-of-day balance the current equity. Otherwise nothing changes. No other field is touched. |
| TradeService.Booked | backend/trade_service.py:65-68 | Equity and balance take the PnL, maxEquity is the larger of the old mark and the new equity, and updatedAt is stamped. No other field changes. |
| TradeService.Accepted | backend/trade_service.py:25-36 | The three guards pass: ACTIVE, a positive price, and cost at most the equity. ExecuteTradeSpec executes exactly when it holds; CreatedChallengeIsTradable shows a new record meets it. |
| TradeService.ExecuteTradeSpec | backend/trade_service.py:25-36 | The guards apply in order: not ACTIVE, then a missing or non-positive price, then cost over equity. Each rejection leaves the record unchanged. A trade executes exactly when all three guards pass. |
| TradeService.ExecutedTradeEffect | backend/trade_service.py:38-88 | An executed trade is CLOSED and carries the PnL that was booked. Equity and balance move by it, maxEquity is raised and the day is rolled. The status is re-derived (loss first) and is ACTIVE, FAILED or PASSED. Identity and limits are unchanged. |
| TradeService.ResetTradingDate | backend/trade_service.py:39-44 | The in-place daily reset leaves the record in the state DailyReset gives. |
| TradeService.BookPnl | backend/trade_service.py:64-68 | The in-place update of equity, balance, mark and timestamp leaves the record in the state Booked gives. |
| TradeService.ExecuteTrade | backend/trade_service.py:6-88 | The method returns, and leaves in the record, exactly the result and state of ExecuteTradeSpec on the record before the call. |
| TradeService.ServerMatchesClient | backend/trade_service.py:64-71 | After the daily reset, an executed server trade yields exactly the record the client's applyTrade gives for the same PnL. |
| TradeService.TerminalRecordIsFrozen | backend/trade_service.py:25-26 | A record that is FAILED, PASSED, FUNDED or PENDING_PAYMENT is never changed by a trade. |
| TradingDay.DayRoll | backend/trading_day_service.py:12-18 | A reset happens exactly when today's UTC date is after the date of updatedAt. The reset sets dailyStartingBalance to the equity and updatedAt to now. Otherwise the record is unchanged. No other field is touched. |
| TradingDay.CheckAndResetTradingDay | backend/trading_day_service.py:4-18 | The method returns DayRoll's flag and leaves the record in DayRoll's state. |
| TradingDay.ResetsAtMostOncePerDay | backend/trading_day_service.py:12-15 | A second call with the same clock reading returns false and changes nothing. |
| TradingDay.ResetClearsDailyLoss | backend/trading_day_service.py:14 | Right after a reset, a positive daily limit is not breached. |
| Replay.ReconstructEquity | backend/replay_service.py:7-9 | The empty log gives exactly the initial balance. |
| Replay.ReconstructAppend | backend/replay_service.py:7-8 | Appending a trade adds its PnL when it is CLOSED and nothing otherwise. |
| Replay.ClosedOnly | backend/replay_service.py:7 | The filtered log holds only CLOSED trades. |
| Replay.ClosedOnlyCounts | backend/replay_service.py:7 | Every CLOSED trade is kept exactly as often as it is logged, and every other trade is dropped. |
| Replay.ClosedOnlyConcat | backend/replay_service.py:7 | Filtering a log in two parts gives the two filtered parts in order, so the CLOSED trades keep their log order. |
| Replay.OpenTradesIgnored | backend/replay_service.py:7 | Dropping the trades that are not CLOSED leaves the reconstructed equity unchanged. |
| Replay.ReconstructOrderIndependent | backend/replay_service.py:7 | Any permutation of the log gives the same reconstructed equity. |
| Replay.VerifyChallengeIntegrity | backend/replay_service.py:11-17 | The integrity check accepts every record, because its comparison is commented out. This is the code's behaviour, not an integrity property. |
| Replay.ExecutionKeepsReplayInvariant | backend/replay_service.py:4-8 | If the log replays to the equity before a trade, the log with the executed trade appended replays to the equity after it. |
| ChallengeRoutes.PlanKind | backend/challenge_routes.py:49-50 | A plan is known exactly when it is the key of a tier, and then it names that tier. |
| ChallengeRoutes.Plan | backend/challenge_routes.py:10-29 | In every server tier, the target and the total-loss limit are 10% of the balance and the daily limit is 5%. STARTER is 5000. |
| ChallengeRoutes.RequestUserId | backend/challenge_routes.py:41 | A non-empty `user_id` is used; otherwise `userId` is used. |
| ChallengeRoutes.CreateChallenge | backend/challenge_routes.py:36-72 | A missing or empty body gives the JSON error. A missing user id or plan gives the fields error. An unknown upper-cased plan gives the plan error, naming that plan. The request succeeds exactly otherwise. The record is then ACTIVE, with every balance at the tier's initial balance, the limits from the tier and both timestamps at now. |
| ChallengeRoutes.CreatedChallengeIsTradable | backend/challenge_routes.py:57-72 | A created record fires no rule, so the evaluator keeps it ACTIVE. Any order whose cost fits the balance passes the guards of execute_trade. |
| ChallengeRoutes.ScenarioLowerCasePlanWithAlias | backend/challenge_routes.py:41-53 | `{"userId": "trader-1", "plan": "starter"}` creates a STARTER challenge for trader-1 with equity 5000. |
| ChallengeRoutes.ScenarioUnknownPlan | backend/challenge_routes.py:49-51 | The plan "gold" is rejected as "GOLD". |
| Series.Sma | frontend/services/marketService.ts:55-56 | The mean of the last n prices. SmaOfConstant, SmaOfPositive and SmaOfSuffix are stated about it; both signal modules use it for sma5 and sma20 (backend/signal_service.py:12-13). |
| Series.SumOfConstant | frontend/services/marketService.ts:55-56 | The sum of n copies of x is n times x. |
| Series.SmaOfSuffix | frontend/services/marketService.ts:55-56 | A moving average over the last n prices depends only on the last m >= n prices. |
| MarketSignal.CalculateSignal | frontend/services/marketService.ts:52-62 | Under 20 prices the answer is HOLD 'Analyzing market depth...'. BUY exactly when sma5 > sma20 · 1.0005. SELL exactly when not BUY and sma5 < sma20 · 0.9995. Otherwise HOLD 'Market consolidation'. Each kind comes with its reason. |
| MarketSignal.OnlyLastTwentyMatter | frontend/services/marketService.ts:55-56 | Two series with the same last 20 prices get the same signal. |
| MarketSignal.FlatMarketHolds | frontend/services/marketService.ts:58-61 | A flat series of non-negative prices gives HOLD 'Market consolidation'. |
| MarketSignal.FlatNegativeSeriesBuys | frontend/services/marketService.ts:58 | A flat series of negative values gives BUY. |
| SignalService.CalculateSignal | backend/signal_service.py:8-20 | Under 20 prices the answer is ("HOLD", "INSUFFICIENT_DATA"). Otherwise BUY exactly when sma5 > sma20, SELL exactly when sma5 < sma20, HOLD exactly when they are equal, each with its reason. |
| SignalService.OnlyLastTwentyMatter | backend/signal_service.py:12-13 | Two series with the same last 20 prices get the same signal. |
| SignalService.FlatMarketIsNeutral | backend/signal_service.py:15-20 | A flat series of 20 or more prices gives ("HOLD", "NEUTRAL_MARKET"). |
| SignalService.ClientSignalImpliesServerSignal | backend/signal_service.py:15-20 | For positive prices, a client BUY or SELL is also the server's signal, and a server HOLD is a client HOLD. |
| SignalService.DeadBandDisagreement | frontend/services/marketService.ts:58-61 | Fifteen prices of 100 followed by five of 100.01 are a server BUY but a client HOLD. |
| MarketValidator.ValidateMarketData | backend/market_validator.py:4-17 | A missing or non-positive price gives (false, "INVALID_PRICE_VALUE"). With a valid price, a missing, empty or over-12-character symbol gives (false, "INVALID_SYMBOL_FORMAT"). The result is (true, None) exactly when both are valid. |
| MarketValidator.DocumentedExamples | backend/market_validator.py:19-21 | The two rejected payloads in the module's comment are rejected with the expected errors. |
| MarketValidator.PriceCheckedFirst | backend/market_validator.py:11-15 | A bad price with a bad symbol reports the price error. |
| RateLimiter.Recent | backend/rate_limiter.py:13 | The kept timestamps are all less than 60 s old and are a sub-multiset of the stored ones. |
| RateLimiter.RecentCounts | backend/rate_limiter.py:13-14 | Each timestamp less than 60 s old is kept exactly as often as it is stored, and every older one is dropped. So the length compared with 10 is the number of trades within the last minute. |
| RateLimiter.RecentKeepsFresh | backend/rate_limiter.py:13 | Every stored timestamp less than 60 s old is kept. |
| RateLimiter.RecentLater | backend/rate_limiter.py:13 | Filtering again at a later time gives the same list as one filter at that later time. |
| RateLimiter.CanExecuteTradeSpec | backend/rate_limiter.py:9-21 | A user with 10 or more trades within the last minute is refused with "RATE_LIMIT_EXCEEDED" and nothing is stored. Otherwise the user's list becomes their recent trades followed by `now`, at most 10 entries, and exactly `[now]` for a first-time user. Other users' entries are never changed. |
| RateLimiter.RateLimiter.CanExecuteTrade | backend/rate_limiter.py:9-21 | The method's answer and the new map are those of CanExecuteTradeSpec on the old map. |
| RateLimiter.AcceptedListIsWindow | backend/rate_limiter.py:13-20 | After an accepted call, the user's list holds 1 to 10 timestamps, all within the last minute, the last being `now`. |
| RateLimiter.IsMarketOpen | backend/rate_limiter.py:23-38 | A symbol containing "BTC" is always open. Any other symbol is open exactly on weekdays 0-4, from 9:30 until before 16:00. |
| News.CategorizeArticle | backend/news_service.py:45-66 | The category is the first keyword list with a hit in the lower-cased title and description: Crypto, then Actions US, then Économie, then Matières Premières. Marchés Globaux is the default. |
| News.KeywordCount | backend/news_service.py:75-76 | Each keyword counts at most once, so the count is at most the list length. The count is zero exactly when no keyword occurs, and equals the list length exactly when every keyword occurs. |
| News.KeywordCountSingle | backend/news_service.py:75-76 | A one-keyword list counts 1 exactly when the keyword occurs in the content, and 0 otherwise. |
| News.KeywordCountConcat | backend/news_service.py:75-76 | The count over two lists is the sum of their counts. With the single-keyword case, this makes the count the number of listed keywords that occur. |
| News.GetSentiment | backend/news_service.py:68-83 | Bullish when bullish keywords outnumber bearish ones, Bearish for the reverse, Neutre on a tie. Each count is at most 9. |
| News.NoKeywordIsNeutral | backend/news_service.py:78-83 | A text with neither kind of keyword is Neutre. |
| News.ContentIgnoresCase | backend/news_service.py:47 | Texts that agree up to ASCII case are scanned as the same content. |
| News.ClassifiersIgnoreCase | backend/news_service.py:47-70 | Upper-casing the title and description changes neither the category nor the sentiment. |
| News.GetTimeAgo | backend/news_service.py:18-43 | No parsable date gives "récemment". Under 60 s, negative values included, the label is "à l'instant". Otherwise it is "il y a {n}min" with n = Minutes(s) = ⌊s/60⌋ and 1 <= n < 60, or "il y a {n}h" with n = Hours(s) = ⌊s/3600⌋ and 1 <= n < 24, or "il y a {n}j" with n = Days(s) = ⌊s/86400⌋ and n >= 1. |
| News.Minutes | backend/news_service.py:34 | `int(seconds / 60)` is the whole number of minutes elapsed. |
| News.Hours | backend/news_service.py:37 | `int(seconds / 3600)` is the whole number of hours elapsed. |
| News.Days | backend/news_service.py:40 | `int(seconds / 86400)` is the whole number of days elapsed. |
| News.MinutesLabelBreaking | backend/news_service.py:138-142 | A minutes label is breaking exactly when its count is below 30. |
| News.NoMinuteMarkNotBreaking | backend/news_service.py:138 | A label without the letter 'm' is never breaking. |
| News.IsBreaking | backend/news_service.py:137-144 | The breaking flag of a label. MinutesLabelBreaking shows it holds on "il y a {n}min" exactly when n < 30, NoMinuteMarkNotBreaking that it fails without an 'm', and BreakingIffUnderHalfHour combines both with GetTimeAgo. |
| News.BreakingIffUnderHalfHour | backend/news_service.py:137-144 | An article is breaking exactly when it was published at least 60 s and less than 1800 s ago. |
| Leaderboard.Insert | backend/leaderboard_routes.py:98 | One entry longer, with the new entry or the old first entry at the head. InsertSorted and InsertPermutation state the rest. |
| Leaderboard.InsertSorted | backend/leaderboard_routes.py:98 | Inserting into a list sorted by profit keeps it sorted. |
| Leaderboard.InsertPermutation | backend/leaderboard_routes.py:98 | Inserting adds exactly the one entry, and no other entry is lost or added. |
| Replay.ClosedPnlPermutation | backend/replay_service.py:7 | Two logs holding the same trades, in any order, have the same closed PnL. |
| Leaderboard.SortByProfit | backend/leaderboard_routes.py:98 | The result is sorted by profit, highest first, and is a permutation of the input. |
| Leaderboard.Padded | backend/leaderboard_routes.py:85-95 | The padded list is the real traders followed by the first reference traders, up to 10 entries in all. Each appended entry is flagged not real and ranked after the entries before it. |
| Leaderboard.Reranked | backend/leaderboard_routes.py:100-102 | The same entries in the same order, each ranked by its 1-based position. |
| Leaderboard.TopTraders | backend/leaderboard_routes.py:80-106 | The board the route returns. PaddedBoard, RealTradersKept and FullBoardUnchanged state its properties; GetTopTraders is proved equal to it. |
| Leaderboard.GetTopTraders | backend/leaderboard_routes.py:79-106 | The padding loop, the sort and the renumbering loop return exactly TopTraders of the inputs. |
| Leaderboard.PaddedBoard | backend/leaderboard_routes.py:80-104 | With fewer than 10 real traders, the board has min(10, real + reference) entries. It is sorted by profit, ranked 1..n in order, and a permutation of the padded list up to ranks. |
| Leaderboard.RealTradersKept | backend/leaderboard_routes.py:85 | Every real trader is on the board, with only its rank changed. |
| Leaderboard.FullBoardUnchanged | backend/leaderboard_routes.py:80-106 | With 10 or more real traders, the list is returned as it is. |
| CardForm.StripSpaces | frontend/components/CMIModal.tsx:33 | The result holds no whitespace character. With StripSpacesSingle and StripSpacesConcat, every whitespace character is removed and every other character is kept, in order. |
| CardForm.StripSpacesSingle | frontend/components/CMIModal.tsx:33 | One character is dropped exactly when it is whitespace and kept otherwise. |
| CardForm.StripSpacesConcat | frontend/components/CMIModal.tsx:33 | Stripping two strings one after the other gives the two stripped parts in order. |
| CardForm.Groups | frontend/components/CMIModal.tsx:60-61 | The output has a space exactly at the positions i with i % 5 == 4, digits elsewhere, and no trailing space. So every group has four digits except the last, which has one to four. |
| CardForm.FormatCardNumber | frontend/components/CMIModal.tsx:58-62 | The formatted number holds only digits and spaces, in groups of four separated by single spaces. |
| CardForm.FormattedNumberKeepsDigits | frontend/components/CMIModal.tsx:59-61 | Removing the spaces from the formatted number gives the typed digits, in order. |
| CardForm.FormatCardNumberIdempotent | frontend/components/CMIModal.tsx:58-62 | Formatting a formatted number changes nothing. |
| CardForm.FormatExpiry | frontend/components/CMIModal.tsx:128-130 | The output has at most 5 characters and is digits except at index 2. It has a '/' at index 2 once more than two digits are typed; otherwise it is the digits typed. Its digits are exactly the first four digits typed (all of them when fewer), in order. |
| CardForm.FormatExpiryIdempotent | frontend/components/CMIModal.tsx:128-130 | Reformatting a formatted expiry changes nothing. |
| CardForm.FilterCvv | frontend/components/CMIModal.tsx:145 | The CVV is the typed digits, in order (the digit filter, which DigitsOnlySingle and DigitsOnlyConcat fix). Each typed digit is kept exactly as often as it was typed. An all-digit input is kept unchanged. |
| Strings.DigitsOnly | frontend/components/CMIModal.tsx:128 | Only digits, never longer than the input. DigitsOnlyCounts, DigitsOnlySingle and DigitsOnlyConcat fix it as the typed digits, in order (also line 145). |
| Strings.DigitsOnlyCounts | frontend/components/CMIModal.tsx:128 | The digit filter keeps each digit as often as it occurs and drops every other character. |
| Strings.DigitsOnlySingle | frontend/components/CMIModal.tsx:128 | One character is kept exactly when it is a digit. |
| Strings.DigitsOnlyConcat | frontend/components/CMIModal.tsx:128 | Filtering two strings one after the other gives the two filtered parts in order. With the one-character case, this fixes the filter as "the typed digits, in order". |
| CardForm.Validate | frontend/components/CMIModal.tsx:30-40 | cardName error exactly when the name is empty. cardNumber error exactly when the number without whitespace does not have 16 characters. expiry error exactly when it is not two digits, '/', two digits. cvv error exactly when it does not have 3 characters. Valid exactly when there is no error. |
| CardForm.FormattedFormValid | frontend/components/CMIModal.tsx:30-40 | A form filled through the formatters is valid exactly when a name is given and 16 card digits, at least 4 expiry digits and 3 CVV digits are typed. |
| MasterClass.QuizScore | frontend/components/MasterClass.tsx:506-509 | The score is at most the number of answers. |
| MasterClass.ScoreCountsCorrectAnswers | frontend/components/MasterClass.tsx:508 | The score is the number of positions whose answer is the question's correct option. |
| MasterClass.ScoreAfterAnswer | frontend/components/MasterClass.tsx:490-494 | One more answer adds a point exactly when it is the correct option of its question. |
| MasterClass.FullScoreIffAllCorrect | frontend/components/MasterClass.tsx:508 | The score equals the number of answers exactly when every answer is correct. |
| MasterClass.GradeOf | frontend/components/MasterClass.tsx:734-738 | "Perfect" exactly when score == total. "Validated" exactly when the score is not total and at least 0.7 · total. "Failed" otherwise. |
| MasterClass.GradeMonotone | frontend/components/MasterClass.tsx:734-738 | A higher score never earns a lower grade. |
| MasterClass.ResultsGradePerfectIffAllCorrect | frontend/components/MasterClass.tsx:727-738 | With every question answered, the grade is perfect exactly when every answer is correct. |
| MasterClass.QuizSession.Valid | frontend/components/MasterClass.tsx:470-473 | In a valid state there are never more answers than questions. |
| MasterClass.QuizSession.constructor | frontend/components/MasterClass.tsx:477-482 | Opening a lesson shows its content with a cleared quiz. |
| MasterClass.QuizSession.ResetQuiz | frontend/components/MasterClass.tsx:484-488 | The answers are empty, the index is 0 and the explanation is hidden. The view is unchanged. |
| MasterClass.QuizSession.BackToContent | frontend/components/MasterClass.tsx:744 | The quiz is reset and the content view is shown. |
| MasterClass.QuizSession.StartQuiz | frontend/components/MasterClass.tsx:650 | The content view switches to the quiz. Nothing else changes. |
| MasterClass.QuizSession.HandleNextQuestion | frontend/components/MasterClass.tsx:490-494 | Exactly one answer is appended and the explanation is shown. The score grows by one exactly when the answer is correct. The state stays valid. |
| MasterClass.QuizSession.ProceedToNext | frontend/components/MasterClass.tsx:496-504 | Below the last question, the index grows by one and the explanation is hidden. At the last question the view switches to RESULTS, with every question answered. Answers are unchanged. |

## Left out

- Floating point. Money, prices, slippage and elapsed seconds are exact reals, so rounding
  (`.toFixed`, `ROUND`, the `:.2f` messages) and float `0.7 * total` are not modelled.
- Clocks, randomness and generated ids. `datetime.now`, `time.time`, `new Date()`,
  `random.uniform`, `uuid4` and `Math.random` are parameters. ISO strings are not parsed;
  only their instant matters, so time zones other than UTC and RFC date parsing in
  `get_time_ago` are not modelled. An unparsable date is `None`.
- Persistence, routing and concurrency. The SQL queries, the `challenges_db` store, Flask
  responses and status codes, the per-challenge lock, and the rest of `create_challenge` after
  the record is built are not modelled.
- The leaderboard's SQL query is not modelled; the real traders are an input. Generating the
  reference traders is random, so they are an input too.
- Dynamic typing. JSON values are strings, and a price is a number or missing. A request body
  that is not an object, or a price that is a string, is not modelled.
- Text. String lengths count Unicode scalar values, whereas JavaScript counts UTF-16 code
  units. Case mapping is ASCII only, where Python's `upper`/`lower` also map other letters.
  `int()`'s acceptance of surrounding whitespace and underscores is not modelled; the labels
  it reads never contain them.
- `maxLength` on the card inputs is a browser limit, not part of the formatters, and is not
  modelled.
- Leaderboard.SortByProfit: the contract states sortedness and permutation but not stability.
  The function itself keeps earlier entries first among equal profits, as Python's sort does.
- The in-place rank write on the reference dicts (`backend/leaderboard_routes.py:93`) is
  overwritten by the renumbering before anything reads it. The model keeps all entries as
  values, so that aliasing is not modelled.
- MasterClass: the quiz view on a lesson with no questions would fail to render; the model
  simply offers no answer button then. React rendering, hooks and the course catalogue are
  not modelled.
- `fetch_financial_news` (RSS fetching, caching and sorting by label) is not modelled.
