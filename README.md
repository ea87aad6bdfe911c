# Polymarket trading-signal pipeline, modelled in Dafny

This project models the decision core of a Polymarket trading-signal service. The core has three stages.

1. **Opportunity scorer** (`Analyzer`, from `analyzer/market_analyzer.py`).
   - A raw market record becomes an analysis: a score, a recommendation and a list of reasons.
   - Four independent rules award 30, 20, 25 and 15 points: volume, liquidity, fair pricing and timeframe.
   - A scan keeps the analyses whose score meets a threshold and orders them by score, highest first.
   - `AnalyzeMarket` and `ScanOpportunities` are imperative, like the source: a score accumulator, appended reasons, and a filtering loop. Each is proved equal to a specification function (`Analyze`, `Opportunities`), and the source's promises are proved about those functions.
2. **Signal generator** (`Signals`, from `signals/signal_generator.py`).
   - `SignalGenerator` is a class whose `signalsGenerated` log grows by one signal per `GenerateSignal` call. The log's length before the call is the signal's sequence number.
   - A signal carries the following:
     - a confidence: the score plus volume and liquidity bonuses, capped at 100;
     - an action: TRADE when the confidence reaches the generator's threshold, otherwise SKIP;
     - a side, set by price band;
     - target and stop prices clamped to [0.05, 0.95];
     - a position size set by confidence bracket.
   - `GenerateBatch` is the source's loop with an early exit. It is proved against `Examined`, the examined signals: one per analysis, stopping right after the TRADE that reaches the cap.
3. **Request dispatch** (`Service`, from `acp/service.py`).
   - Endpoint names are routed to handlers.
   - The caller's tier sets a threshold: 70 for "pro", 60 for "premium", 50 for anything else. This threshold is both the scan's minimum score and the generator's minimum confidence.
   - Batch sizes are clamped per tier, and "free" single-signal answers are redacted to five keys.
   - The service keeps no state that changes, so its handlers are functions. Functions cannot call methods, so the handlers compose the specification functions (`Opportunities`, `SignalFor`, `Examined`, `Trades`) that the imperative scan and generator methods are proved to compute.
   - Each request uses a fresh generator, so its signals are numbered from 0.

`Seqs` holds small generic facts about sequences. `Wrappers` holds the `Option` type.

Inputs the source takes from the outside world are parameters of the model:
- **The market list.** In the source it comes from an HTTP request. Here it is a sequence of `Market` records, and a failed fetch is the empty sequence.
- **The days left until a market's end date.** In the source these need the wall clock and an ISO-8601 parser. Here they are part of the record: `Parsed(days)`, or `Malformed` for a date that does not parse (the source then uses 0 days).
- **The UTC clock.** This is one `Clock` reading per request. It holds the compact stamp used in identifiers and the ISO timestamp of the signal.

Two consequences of the code's guards are stated as example lemmas:
- **A volume of exactly 2,000,000 earns no volume bonus.** The guard is strict (signals/signal_generator.py:78). So a market with volume 2,000,000, liquidity 150,000, price 0.45 and 30 days left scores 90 and has confidence 90, where a non-strict guard would give 95 (`Signals.EndToEndExample`).
- **Any price above 0.60 takes NO** (signals/signal_generator.py:100-101). So an entry at 0.92 has target 0.82 and stop 0.95 (`Signals.HighPriceTakesNo`).

## Model

| member | source | states |
|---|---|---|
| Analyzer.CurrentPrice | analyzer/market_analyzer.py:86-95 | a priced first outcome gives its price; the current price is 0.0 when there are no outcomes or the first outcome has no numeric price |
| Analyzer.DaysUntil | analyzer/market_analyzer.py:97-104 | a parsed end date gives its days left; a present end date that does not parse counts as 0 days |
| Analyzer.Recommend | analyzer/market_analyzer.py:76-82 | STRONG BUY exactly for score >= 70, BUY exactly for 50..69, WATCH exactly for 30..49, SKIP exactly below 30 |
| Analyzer.AnalyzeMarket | analyzer/market_analyzer.py:34-84 | the analysis built step by step (volume and liquidity defaulting to 0, score accumulated, reasons appended rule by rule, band chosen last) is `Analyze(m)` |
| Analyzer.ScoreIsSumOfFiredRules | analyzer/market_analyzer.py:47-74 | the score is the total of the points of the rules that fire, so it is one of the subset sums {0, 15, 20, 25, 30, 35, 40, 45, 50, 55, 60, 65, 70, 75, 90} and lies in [0, 90] |
| Analyzer.ReasoningFollowsRules | analyzer/market_analyzer.py:50-72 | the reasoning is exactly the texts of the rules that fire, one each, in the order volume, liquidity, pricing, timeframe |
| Analyzer.RecommendationMonotone | analyzer/market_analyzer.py:76-82 | a higher score never gives a lower recommendation band |
| Analyzer.PricingRuleBand | analyzer/market_analyzer.py:60-64 | the pricing rule fires exactly when the current price is in [0.40, 0.60]; a record without outcomes has price 0.0 and never gets the bonus |
| Analyzer.TimeframeRuleBand | analyzer/market_analyzer.py:66-72 | the timeframe rule fires exactly when an end date is present, parses, and is 7 to 90 days away; an unparsable date never gets the bonus |
| Analyzer.QualifyingSound | analyzer/market_analyzer.py:111-114 | every analysis the scan keeps meets `min_score` and is the analysis of one of the fetched markets |
| Analyzer.QualifyingComplete | analyzer/market_analyzer.py:111-114 | the analysis of every fetched market whose score meets `min_score` is kept |
| Analyzer.Insert | analyzer/market_analyzer.py:116-117 | inserting into a list ordered by score keeps it ordered and adds exactly the one element |
| Analyzer.SortByScore | analyzer/market_analyzer.py:116-117 | the result is ordered by score, highest first, and is a permutation of the input |
| Analyzer.Opportunities | analyzer/market_analyzer.py:106-119 | the scan result is ordered by score, highest first, is a permutation of the qualifying analyses, holds only scores >= `min_score`, and is empty for an empty fetch |
| Analyzer.TopOpportunityIsBest | analyzer/market_analyzer.py:116-119 | when anything qualifies, the first opportunity has the highest score of all qualifying analyses |
| Analyzer.ScanOpportunities | analyzer/market_analyzer.py:106-119 | the loop that analyses, filters and then sorts returns `Opportunities(markets, minScore)` |
| Signals.Confidence | signals/signal_generator.py:67-88 | confidence is min(score + volume bonus + liquidity bonus, 100), with the volume bonus 10 above 5,000,000 and 5 above 2,000,000 and the liquidity bonus 10 above 500,000 and 5 above 200,000; it is never below the capped score and not negative for a non-negative score |
| Signals.DetermineSide | signals/signal_generator.py:90-105 | the side is NO exactly when the price is above 0.60, YES otherwise (including the 0.40 to 0.60 band) |
| Signals.TargetPrice | signals/signal_generator.py:50-57 | for an entry price in [0, 1] the target lies in [0.05, 0.95] |
| Signals.StopLoss | signals/signal_generator.py:50-57 | for an entry price in [0, 1] the stop lies in [0.05, 0.95] |
| Signals.PositionSize | signals/signal_generator.py:107-118 | the position size is 0.10 exactly for confidence >= 90, 0.07 exactly for 80..89, 0.05 exactly for 70..79, 0.03 exactly for 60..69 and 0.01 exactly below 60; so it is always positive |
| Signals.PositionSizeMonotone | signals/signal_generator.py:107-118 | a higher confidence never gives a smaller position |
| Signals.SignalFor | signals/signal_generator.py:18-65 | the signal's id carries the log length as sequence number and its timestamp is the clock's ISO reading; action is TRADE exactly when confidence reaches the threshold; a SKIP has no side, target or stop and size 0; a TRADE has the side, target and stop of its entry price and the size of its confidence, which is positive; price, reasons, market fields and the supporting volume, liquidity and score are copied |
| Signals.TradeLevelsInRange | signals/signal_generator.py:46-60 | a TRADE with entry price in [0, 1] has target and stop in [0.05, 0.95] |
| Signals.NumberedIdsIncrease | signals/signal_generator.py:120-124 | signals of one generator carry strictly increasing, hence distinct, sequence numbers |
| Signals.SignalGenerator.constructor | signals/signal_generator.py:14-16 | a new generator has the given threshold and an empty log |
| Signals.SignalGenerator.CalculateConfidence | signals/signal_generator.py:67-88 | the accumulator version returns `Confidence(analysis)` |
| Signals.SignalGenerator.GenerateSignal | signals/signal_generator.py:18-65 | the returned signal is `SignalFor` of the analysis with the former log length as sequence number and the log grows by exactly that signal, keeping consecutive numbering |
| Signals.SignalGenerator.GenerateBatch | signals/signal_generator.py:126-138 | the log grows by exactly the examined signals (SKIPs included) and the result is the TRADE signals among them, in order |
| Signals.TradesAreTrades | signals/signal_generator.py:132-133 | every kept batch signal is a TRADE taken from the examined signals |
| Signals.TradesAreSubsequence | signals/signal_generator.py:130-133 | the batch result is a subsequence of the examined signals, order kept |
| Signals.ExaminedInOrder | signals/signal_generator.py:130-131 | the k-th examined signal is made from the k-th analysis with sequence number start + k |
| Signals.CutCap | signals/signal_generator.py:130-136 | a batch keeps at most max(max_signals, 1) signals, and when it stops early it has just kept the TRADE that reaches that cap |
| Signals.ExaminedCap | signals/signal_generator.py:126-138 | a batch keeps at most max(max_signals, 1) signals; when every analysis reaches the threshold it keeps exactly min(number of analyses, max(max_signals, 1)) |
| Signals.EndToEndExample | signals/signal_generator.py:18-88 | the market with volume 2,000,000, liquidity 150,000, price 0.45 and 30 days left scores 90 ("STRONG BUY") and gives a "TRADE" on "YES" at confidence 90, target 0.55, stop 0.40, size 0.10 |
| Signals.HighPriceTakesNo | signals/signal_generator.py:46-57 | an entry at 0.92 takes "NO" with target 0.82 and stop 0.95; 0.35 and 0.50 take YES and 0.70 takes NO |
| Service.MinScore | acp/service.py:120-121 | the threshold is 70 exactly for "pro", 60 exactly for "premium", 50 exactly for every other tier string |
| Service.BatchCap | acp/service.py:149-155 | the requested count (5 by default) becomes min(count, 1) for "free" and min(count, 10) for "premium", and stays as asked for every other tier |
| Service.Redact | acp/service.py:131-139 | the limited view carries the signal's id, question, action, side and confidence unchanged |
| Service.GetSignal | acp/service.py:106-142 | a `market_id` request gets the not-implemented error; no qualifying market gets "No opportunities found"; otherwise the signal of the top opportunity, made by a fresh generator with the tier threshold, redacted only for "free" |
| Service.GetBatch | acp/service.py:144-167 | the answer is a batch, never an error, whose count is its length and whose signals are the TRADE signals of a fresh generator's batch over the opportunities with the tier's cap |
| Service.GetPerformance | acp/service.py:169-182 | every metric of the performance record is zero |
| Service.HandleRequest | acp/service.py:94-104 | "get_signal", "get_batch" and "get_performance" go to their handlers; any other endpoint gets exactly the error record "Unknown endpoint" |
| Service.ErrorCases | acp/service.py:94-124 | the answer is an error exactly for an unknown endpoint, or for a single signal asked for by market id or with nothing qualifying |
| Service.SignalIsTrade | acp/service.py:120-128 | a returned single signal (full or limited) is always a TRADE with a side |
| Service.FreeTierIsRedacted | acp/service.py:131-142 | "free" gets exactly the keys signal_id, market_question, action, side, confidence, a strict part of the full signal's keys; every other tier gets the full signal |
| Service.SignalFromTopOpportunity | acp/service.py:119-128 | when a fetched market meets the threshold, a signal is returned, and its opportunity score is at least that market's score |
| Service.BatchBounds | acp/service.py:149-167 | a batch's count is its length, at most max(cap, 1), so at most 1 for "free" and at most 10 for "premium"; all its signals are TRADEs and it is a subsequence of the examined signals |
| Service.BatchTakesTopOpportunities | acp/service.py:157-162 | a batch holds exactly min(number of opportunities, max(cap, 1)) signals, the k-th made from the k-th best opportunity with sequence number k |
| Service.EmptyFetchGivesEmptyBatch | acp/service.py:157-167 | with nothing fetched, a batch answer is count 0 with no signals, not an error |

## Left out

- The HTTP fetch `get_trending_markets` (analyzer/market_analyzer.py:18-32) is network I/O. The fetched list is a parameter, and a failed fetch is the empty list.
- ISO-8601 parsing and the wall clock in `_days_until` are left out. The days left are an input of the record. The clock readings used in signal identifiers and timestamps are one `Clock` parameter per request, so time does not advance within a request.
- Identifiers keep the timestamp and the sequence number as a pair. The text `SIG-<stamp>-<nnnn>`, with its zero-padding to four digits, is not rendered.
- `format_for_twitter` and `save_signals` are string formatting and file output.
- `create_offering`, the constructor's key lookup in the environment, the `__main__` demonstrations and `main.py` are static configuration and console I/O.
- Python floats are modelled as exact reals. For example, 0.45 + 0.10 is exactly 0.55 here, not the nearest binary double.
- Scores are integers. Every rule adds whole points to a score that starts at 0, so `int()` in the confidence never truncates anything.
- The batch `count` is an optional integer, and a missing key means 5. In the source, a `count` that is present but null makes `min` raise, or makes the cap comparison raise in the batch loop for tiers without a clamp. A fractional count such as 2.5 keeps 3 signals. Neither case is modelled.
- A volume or liquidity that is present but not a number makes the source raise. The model takes these fields as optional numbers, with absent meaning 0. An empty end-date string counts as absent.
- Analyzer.SortByScore: the stability of Python's sort is not stated. The insertion sort keeps equal scores in input order, but only ordering and permutation are proved.
- Signals.TargetPrice and Signals.StopLoss: the contracts state the [0.05, 0.95] bounds only. The exact formulas per side are their bodies, and `Signals.SignalFor` states which one each signal uses.
