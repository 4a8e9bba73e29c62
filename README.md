# apisicsun prediction engine, modelled in Dafny

`apisicsun.js` is a small server that polls a Sic Bo game's result history and predicts each next round. Each round has three dice and a total from 3 to 18. Totals of 11 and up are "Tài" (T) and totals up to 10 are "Xỉu" (X). This project models its prediction engine and proves properties of it. That engine is everything in the file except fetching, the polling timer and the HTTP route.

- `outcomes.dfy` (module `Outcomes`): the record of one round (session, total, class, dice), classes, `lastN`, and the newest-first window.
- `signals.dfy` (module `Signals`): the five signals of the algorithm table. Each maps the history to T, X or an abstention. The run-counting and flip-counting loops of SmartBreak and ChaosBreaker are methods, proved equal to recursive definitions.
- `weights.dfy` (module `Weights`): the adaptive weight update.
- `ensemble.dfy` (module `Ensemble`): the weighted vote and its confidence. The voting loop is a method proved against the recursive tallies `Support` and `Turnout`.
- `scores.dfy` (module `Scores`): the three-totals picker. Its counting loop is a method proved against `Tally`. Its fallback loop is proved against `FillUp`. The picks are specified by `Picks`.
- `engine.dfy` (module `Engine`): the engine's state.
  - The functional state machine is `State`, `Absorb`, `Predicted` and `Step`, with the invariant `Consistent`.
  - The class `PredictionEngine` holds the globals of the source as fields, with the weight table as an `array<real>`. Its methods are proved to move the fields exactly as `Step` moves the state.

Randomness becomes two parameters:
- `u` in [0, 1) is the value `Math.random()` returns for the random pick of a total (line 132).
- `coin` is the class drawn when the history is empty (line 179). `Ensemble.CoinNeverDrawn` proves the verdict never depends on it when the history is non-empty. The engine only asks for a verdict on a non-empty history.

Weights and confidences are `real`. `Math.round(x)` is modelled as `floor(x + 0.5)`.

## Model

| member | source | states |
|---|---|---|
| Outcomes.LastN | apisicsun.js:27 | the result has min(n, length) elements and they are the last ones of the input, in order |
| Outcomes.Newest | apisicsun.js:268 | the newest-first window has min(n, length) elements, the i-th being the i-th newest record |
| Signals.CountFlips | apisicsun.js:67-73 | the flip-counting loop returns the number of adjacent positions whose classes differ (`Flips`) |
| Signals.CountRun | apisicsun.js:42-48 | the backwards run-counting loop returns the length of the trailing run of equal classes (`Run`) |
| Signals.RunAtLeast | apisicsun.js:44-45 | the trailing run is at least k long exactly when the last k classes all equal the last one |
| Signals.TrendMaster | apisicsun.js:32-39 | a vote always follows the last class and needs five records; on five or more records it abstains exactly when the last three classes read aab (a followed by a change) |
| Signals.SmartBreakReversesLongRuns | apisicsun.js:42-48 | SmartBreak votes against the last class exactly when there are at least seven records and the last seven classes are equal, and abstains otherwise |
| Signals.Pattern212 | apisicsun.js:51-58 | a vote needs five records and is always against the last class |
| Signals.SmartBreak | apisicsun.js:42-48 | a SmartBreak vote needs at least seven records and is against the last class |
| Signals.Matrix3 | apisicsun.js:61-64 | Matrix3 votes exactly on five or more records, and then for the class three rounds back |
| Signals.ChaosBreaker | apisicsun.js:67-73 | a ChaosBreaker vote needs at least seven records (six flips in the last eight) and is against the last class |
| Signals.ShortHistoryAbstains | apisicsun.js:32-73 | every signal abstains on fewer than five records; SmartBreak and ChaosBreaker also abstain on fewer than seven |
| Signals.AlternatingFive | apisicsun.js:32-73 | on T X T X T only TrendMaster and Matrix3 vote (both T); the other three abstain |
| Signals.Vote | apisicsun.js:75-81 | no entry of the algorithm table votes on fewer than five records, SmartBreak and ChaosBreaker not on fewer than seven; TrendMaster follows the last class, Matrix3 repeats the class three rounds back, and SmartBreak, Pattern212 and ChaosBreaker vote against the last class |
| Signals.Evaluate | apisicsun.js:75-81 | running signal k of the table, loops included, gives the k-th signal's defined vote |
| Weights.NewWeight | apisicsun.js:150-162 | the new weight is at least 0.1, stays at most 5.0 if it was, rises only on a right vote (or hits the 5.0 cap), and never rises on an abstention or a wrong vote except back up to the 0.1 floor |
| Weights.Reweighted | apisicsun.js:147-164 | updating the whole table keeps five weights and keeps every weight in [0.1, 5.0] |
| Engine.PredictionEngine.UpdateAlgorithmWeights | apisicsun.js:147-164 | after the in-place loop, each array entry is that signal's new weight, judged on the current history |
| Ensemble.Turnout | apisicsun.js:170-176 | the total weight of the voters is the T tally plus the X tally |
| Ensemble.SupportNonNegative | apisicsun.js:170-176 | with positive weights, each class's tally is non-negative |
| Ensemble.TurnoutPositive | apisicsun.js:170-176 | with positive weights, the total weight is positive exactly when at least one signal votes |
| Ensemble.CastVotes | apisicsun.js:170-176 | the voting loop leaves the weighted T tally, X tally and total weight of the five signals on the history |
| Ensemble.CastVote | apisicsun.js:171-175 | one iteration adds signal k's weight to its class's tally and to the total, or nothing when it abstains |
| Ensemble.Decide | apisicsun.js:178-202 | with no weight cast and a non-empty history, the verdict is the last class at 45; otherwise it is T exactly when the T tally is strictly larger; the confidence is always in [40, 92] |
| Ensemble.Poll | apisicsun.js:170-176 | running the rest of the vote from any point and then deciding always gives a confidence in [40, 92] |
| Ensemble.PollTallies | apisicsun.js:166-203 | folding the ballot from any point with the tallies so far reaches the decision on the complete tallies |
| Ensemble.AnalyzeIsDecision | apisicsun.js:166-203 | the verdict is the decision on the complete weighted tallies of the five signals |
| Ensemble.Confidence | apisicsun.js:187-200 | the confidence percentage is always within [40, 92] |
| Ensemble.Analyze | apisicsun.js:166-203 | every verdict's confidence lies in [40, 92] |
| Ensemble.SilentEnsembleRepeatsLast | apisicsun.js:178-181 | when every signal abstains on a non-empty history, the verdict is the last record's class with confidence 45 |
| Ensemble.CoinNeverDrawn | apisicsun.js:179 | on a non-empty history the random fallback class never influences the verdict |
| Ensemble.TiesGoToX | apisicsun.js:183-184 | when someone votes, the verdict is T exactly when the T tally is strictly greater than the X tally, so ties go to X |
| Ensemble.ShareAtLeastHalf | apisicsun.js:170-187 | with positive weights and at least one vote, the total weight of the tallies is positive and the winning class's tally divided by it is at least one half |
| Ensemble.ConfidenceFloorUnreached | apisicsun.js:189-200 | with a winning share of at least a half and at most 14 flips, the percentage is at least 41, so the floor of 40 never applies |
| Ensemble.VotedConfidence | apisicsun.js:187-200 | when at least one signal votes and all weights are positive, the confidence is an integer in [41, 92] |
| Engine.PredictionEngine.AnalyzePrediction | apisicsun.js:166-203 | the tally loop, the fallback and the confidence computation return exactly the verdict `Analyze` defines |
| Scores.Insert | apisicsun.js:142 | inserting keeps a sequence ascending and adds exactly one element to its multiset |
| Scores.InsertIncreasing | apisicsun.js:142 | inserting a value absent from a strictly increasing sequence keeps it strictly increasing |
| Scores.SortAsc | apisicsun.js:142 | the numeric sort returns an ascending permutation of its input |
| Scores.SortIncreasing | apisicsun.js:142 | sorting distinct values gives a strictly increasing sequence |
| Scores.SortedDiceShowEveryPair | apisicsun.js:94-95 | after sorting three dice, testing only neighbours detects a pair exactly when some two dice are equal |
| Scores.Tally | apisicsun.js:87-99 | every counted total is a valid total of the class, counted between 1 and the window's size |
| Scores.TallyStep | apisicsun.js:91-99 | counting one more record bumps its total exactly when it is counted |
| Scores.TallyKeys | apisicsun.js:87-99 | a total is counted exactly when some record of the window has that class, that total and (for pairs) a pair |
| Scores.PairsNeverOutnumberTotals | apisicsun.js:91-99 | a total with pairs is also a counted total, and it never has more pairs than occurrences |
| Scores.TallyWindow | apisicsun.js:87-99 | the counting loop over the last 100 records yields both frequency tables and the history with the counted records' dice sorted |
| Scores.CountRecord | apisicsun.js:92-98 | one record bumps the frequency (and pair) tables exactly when it is counted, and sorts its dice if so |
| Scores.CountNext | apisicsun.js:91-99 | one loop step carries the counting invariant from record j to record j + 1 |
| Scores.CountingDone | apisicsun.js:87-99 | at the end of the window, the counting invariant gives the tables of the window and the re-sorted history |
| Scores.Best | apisicsun.js:101-112 | the choice is a most frequent candidate, the smallest such among ascending candidates, and is absent exactly when no candidate was counted |
| Scores.Without | apisicsun.js:124 | the remaining totals are exactly the candidates not yet picked, still increasing |
| Scores.FirstNotIn | apisicsun.js:114 | the fallback finds the first candidate not yet picked, and finds none exactly when all are picked |
| Scores.Pick | apisicsun.js:132 | the random index lies within the remaining totals |
| Scores.PayoutPick | apisicsun.js:110-121 | with at most one prior pick, a high-payout total not yet picked is always found, so lines 119-121 are dead |
| Scores.ValidScoresRange | apisicsun.js:86 | the valid totals are 11..17 for T and 4..10 for X |
| Scores.HighPayoutIsValid | apisicsun.js:110 | every high-payout total is a valid total of the class |
| Scores.FillUpShape | apisicsun.js:136-140 | the fallback loop completes one to three distinct valid totals to exactly three, keeping those already picked |
| Scores.FillFallback | apisicsun.js:136-140 | the while loop computes the fill-up `FillUp` defines |
| Scores.FirstPicksShape | apisicsun.js:101-121 | the first picks are one or two distinct valid totals: the most frequent one when there is one, then a high-payout one |
| Scores.DrawnShape | apisicsun.js:124-134 | some totals always remain, and the random pick adds a new valid total |
| Scores.CompletedShape | apisicsun.js:124-140 | the random pick and the fallback give exactly three distinct valid totals containing the first picks |
| Scores.SortedPicks | apisicsun.js:142 | sorting three distinct totals gives three strictly increasing totals with the same members |
| Scores.SortedShape | apisicsun.js:142 | sorting three distinct valid totals, one high-payout, gives well-formed picks with the same members |
| Scores.Picks | apisicsun.js:85-143 | the picker always returns three distinct ascending valid totals of the class, at least one of them high-payout |
| Scores.PicksShape | apisicsun.js:101-142 | the returned totals include the most frequent total (when the window holds a round of the class) and the high-payout pick |
| Scores.ChooseScores | apisicsun.js:101-142 | the picking code computes `Picks` and its result is well formed |
| Scores.SortRecentDice | apisicsun.js:91-94 | the in-place dice sort keeps the number of records and every record's session, total, class and multiset of dice |
| Engine.PredictionEngine.PredictAdvancedScores | apisicsun.js:85-143 | the method returns `Picks` and leaves the history (and the newest-first window sharing its records) with the counted dice sorted, nothing else changed |
| Engine.Accepts | apisicsun.js:247-251 | an empty batch is never taken, the first non-empty batch always is, and afterwards a batch is taken exactly when its newest session is past the last one processed |
| Engine.Resolve | apisicsun.js:255-261 | a round is counted exactly when a forecast exists for the newest session, and counted as a win exactly when its class matches |
| Engine.BandedWeightsArePositive | apisicsun.js:14 | weights within [0.1, 5.0] are positive |
| Engine.Forecast | apisicsun.js:207-220 | the forecast is for the session after the newest, its confidence lies in [40, 92] (at least 41 when a signal votes) and its totals are well formed |
| Engine.Initial | apisicsun.js:16-23 | the initial globals satisfy the engine's invariant |
| Engine.Absorb | apisicsun.js:253-269 | absorbing a batch keeps the weights in band, counts at most one round and leaves the cached forecast alone |
| Engine.Predicted | apisicsun.js:207-226 | on an empty history nothing changes; otherwise the cached forecast is for the next session, remembered by the statistics, in band and well formed, and the history keeps its sessions and classes |
| Engine.Step | apisicsun.js:247-272 | a batch that is not accepted changes nothing; an accepted one advances the last processed session to its newest; afterwards the same batch is no longer accepted |
| Engine.StepKeepsConsistent | apisicsun.js:247-272 | every poll keeps the engine's invariant |
| Engine.RedeliveryChangesNothing | apisicsun.js:251 | delivering the same batch twice has the effect of delivering it once |
| Engine.ScoringCountsOnlyTheForecastRound | apisicsun.js:253-261 | after the first batch, a round is counted exactly when the batch's newest session is the forecast session, and it is a win exactly when the class matches |
| Engine.PredictionEngine.constructor | apisicsun.js:16-23 | the fields start in the initial state, which is consistent |
| Engine.PredictionEngine.Redisplay | apisicsun.js:94 | the history takes the re-sorted records and the newest-first window is rebuilt from them, as the dice arrays it shares with the history show; nothing else changes |
| Engine.PredictionEngine.ComputeForecast | apisicsun.js:210-219 | the method computes `Forecast` on the old history and changes only the dice order of the history and its window |
| Engine.PredictionEngine.CachePrediction | apisicsun.js:214-225 | the forecast is cached and recorded in the statistics, nothing else changed |
| Engine.PredictionEngine.CalculateNextPrediction | apisicsun.js:207-226 | the fields move exactly as `Predicted` says |
| Engine.PredictionEngine.AbsorbBatch | apisicsun.js:253-269 | the fields move exactly as `Absorb` says |
| Engine.PredictionEngine.Ingest | apisicsun.js:247-275 | the fields move exactly as `Step` says, and the engine's invariant is kept |

## Left out

- Fetching and parsing (lines 233-245): the HTTP request, JSON access, `gameNum` parsing, the three-dice filter and the sort by session. The batch is a parameter, already in that form. No precondition is placed on it; the one place the model relies on the filter at line 244 is the pair test below.
- The error handler (lines 276-278) and the console log (line 274): output only.
- The polling timer (lines 281-283), the HTTP route with its labels and win-rate formatting (lines 287-326, `toLowerCaseResult` at line 26), and server start (lines 328-336).
- Asynchrony: `updateData` runs to completion in one step here. The source's timer could start a second poll while one is awaiting the fetch, but the state changes after line 245 contain no `await`.
- Floating point: weights, shares and confidences are `real`. Rounding error in the weight products and in `Math.round` is not modelled. The stated bounds hold for the exact values.
- `Math.random` becomes the parameters `u` and `coin`, as described above.
- Scores.SortAsc: the dice sort at line 94 is JavaScript's default string comparison, modelled as a numeric sort. The two agree on the faces 1-6.
- Shared dice arrays: the in-place sort at line 94 mutates records shared by the history and the newest-first window. The model replaces the records in the history and recomputes the window from it, which shows the same dice.
- Scores.HasPair: the pair test is defined for exactly three dice, and so is the pair test in Scores.CountRecord. A record with fewer or more dice never counts as a pair here. Line 95 would compare missing dice as `undefined` and could count one, but the filter at line 244 removes such records before the engine sees them.
- Weights.Reweighted: the `name` field of each table entry is not modelled; entries are identified by their position in the table.
