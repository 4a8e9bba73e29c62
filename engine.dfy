/**
 * The prediction engine's state and its update cycle: the history of the
 * last batch, the newest processed session, the win/loss statistics, the
 * cached forecast for the next session, the newest-first window kept for
 * display, and the algorithm table's weights. A batch of records (already
 * fetched, parsed, filtered and sorted by session) is accepted only when its
 * newest session is newer than the last one processed; then the previous
 * forecast is scored, the weights are updated on the old history, the
 * history is replaced and one new forecast is computed and cached.
 */
module Engine {
  import opened Outcomes
  import opened Signals
  import opened Weights
  import opened Ensemble
  import opened Scores

  /** Length of the newest-first window (`rikResults`). */
  const RikWindow: nat := 60

  /** `predictionStats` */
  datatype Stats = Stats(
    wins: nat,
    losses: nat,
    lastPred: Option<Tx>,
    lastScorePred: seq<int>,
    lastPredictedSession: int)

  /** `currentPrediction`: the cached forecast for `session`. */
  datatype Prediction = Prediction(tx: Tx, confidence: int, scores: seq<int>, session: int)

  const InitialStats: Stats := Stats(0, 0, None, [], 0)
  const InitialPrediction: Prediction := Prediction(T, 0, [], 0)

  /**
   * Scoring of the cached forecast against the newest record of a batch: a
   * round is counted only when a forecast exists and was made for exactly
   * that session, and it is a win exactly when the class matches.
   */
  function Resolve(s: Stats, latest: Record): (r: Stats)
    ensures r.lastPred == s.lastPred && r.lastScorePred == s.lastScorePred
    ensures r.lastPredictedSession == s.lastPredictedSession
    ensures r.wins + r.losses ==
      s.wins + s.losses + (if s.lastPred.Some? && s.lastPredictedSession == latest.session then 1 else 0)
    ensures r.wins ==
      s.wins + (if s.lastPred == Some(latest.tx) && s.lastPredictedSession == latest.session then 1 else 0)
  {
    if s.lastPred.Some? && s.lastPredictedSession == latest.session then
      if s.lastPred.value == latest.tx then s.(wins := s.wins + 1) else s.(losses := s.losses + 1)
    else s
  }

  /**
   * A batch is taken when it is non-empty and either nothing was seen yet or
   * its newest session is newer: an empty batch is never taken, the first
   * non-empty one always is, and afterwards a batch whose newest session is
   * not past the last processed one is stale and refused.
   */
  predicate Accepts(history: seq<Record>, lastProcessed: int, batch: seq<Record>): (r: bool)
    ensures r ==> |batch| > 0
    ensures |history| == 0 && |batch| > 0 ==> r
    ensures |history| > 0 && |batch| > 0 ==> (r <==> batch[|batch| - 1].session > lastProcessed)
  {
    |batch| > 0 && (|history| == 0 || batch[|batch| - 1].session > lastProcessed)
  }

  /** Weights in the band are positive. */
  lemma BandedWeightsArePositive(w: seq<real>)
    requires InBand(w)
    ensures Positive(w)
  {
  }

  /**
   * The forecast `calculateNextPrediction` caches for a non-empty history h
   * and weights w: the verdict of the ensemble and the three totals of the
   * picker, for the session after the newest one. The confidence lies in
   * [40, 92], and in [41, 92] once any signal votes; the totals are three
   * distinct ascending totals of the predicted class, one high-payout.
   */
  function Forecast(h: seq<Record>, w: seq<real>, u: real, coin: Tx): (p: Prediction)
    requires |w| == NumSignals && |h| > 0 && 0.0 <= u < 1.0
    ensures p.session == h[|h| - 1].session + 1
    ensures MinConfidence <= p.confidence <= MaxConfidence
    ensures InBand(w) && (exists k :: 0 <= k < NumSignals && Vote(k, h).Some?) ==> MinConfidence + 1 <= p.confidence
    ensures WellFormedScores(p.scores, p.tx)
  {
    var v := Analyze(h, w, coin);
    PicksShape(h, v.tx, u);
    assert InBand(w) && (exists k :: 0 <= k < NumSignals && Vote(k, h).Some?) ==> MinConfidence + 1 <= v.confidence by {
      if InBand(w) && exists k :: 0 <= k < NumSignals && Vote(k, h).Some? {
        BandedWeightsArePositive(w);
        VotedConfidence(h, w, coin);
      }
    }
    Prediction(v.tx, v.confidence, Picks(h, v.tx, u), h[|h| - 1].session + 1)
  }

  /** The forecast is the ensemble's verdict together with the picker's totals for its class. */
  lemma ForecastOf(h: seq<Record>, w: seq<real>, u: real, coin: Tx, v: Verdict, picks: seq<int>)
    requires |w| == NumSignals && |h| > 0 && 0.0 <= u < 1.0
    ensures v == Analyze(h, w, coin) && picks == Picks(h, v.tx, u) ==>
      Forecast(h, w, u, coin) == Prediction(v.tx, v.confidence, picks, h[|h| - 1].session + 1)
  {
  }

  /** A snapshot of the engine's globals, the weight table as a sequence. */
  datatype State = State(
    history: seq<Record>,
    lastProcessed: int,
    stats: Stats,
    prediction: Prediction,
    rik: seq<Record>,
    weights: seq<real>)

  /**
   * The engine's invariant: the weights are in band; before the first batch
   * everything holds its initial value; afterwards the cached forecast is for
   * the session after the newest one processed, the statistics remember
   * exactly that forecast, its confidence is in [40, 92] and its totals are
   * well formed.
   */
  predicate Consistent(s: State)
  {
    && |s.weights| == NumSignals && InBand(s.weights)
    && s.rik == Newest(s.history, RikWindow)
    && (|s.history| == 0 ==>
          && s.lastProcessed == 0 && s.stats == InitialStats && s.prediction == InitialPrediction
          && forall k :: 0 <= k < NumSignals ==> s.weights[k] == InitialWeight)
    && (|s.history| > 0 ==>
          && s.lastProcessed == s.history[|s.history| - 1].session
          && s.prediction.session == s.lastProcessed + 1
          && s.stats.lastPredictedSession == s.prediction.session
          && s.stats.lastPred == Some(s.prediction.tx)
          && s.stats.lastScorePred == s.prediction.scores
          && MinConfidence <= s.prediction.confidence <= MaxConfidence
          && WellFormedScores(s.prediction.scores, s.prediction.tx))
  }

  /** The engine as first started. */
  function Initial(): (s: State)
    ensures Consistent(s)
  {
    State([], 0, InitialStats, InitialPrediction, [], seq(NumSignals, _ => InitialWeight))
  }

  /**
   * Lines 253-269 of `updateData` for an accepted batch: the cached forecast
   * is scored and the weights updated (both on the old history, and only if
   * there was one), then the history, the newest-first window and the last
   * processed session are replaced.
   */
  function Absorb(s: State, batch: seq<Record>): (t: State)
    requires |batch| > 0 && |s.weights| == NumSignals
    ensures |t.weights| == NumSignals && (InBand(s.weights) ==> InBand(t.weights))
    ensures t.stats.wins + t.stats.losses <= s.stats.wins + s.stats.losses + 1
    ensures t.prediction == s.prediction
  {
    var latest := batch[|batch| - 1];
    var prior := |s.history| > 0;
    s.(stats := if prior then Resolve(s.stats, latest) else s.stats,
       weights := if prior then Reweighted(s.weights, s.history, latest.tx) else s.weights,
       history := batch,
       rik := Newest(batch, RikWindow),
       lastProcessed := latest.session)
  }

  /**
   * `calculateNextPrediction()`: on a non-empty history, the forecast is
   * computed (sorting the dice of the counted records on the way) and cached,
   * and the statistics remember it. The classes of the history do not change.
   */
  function Predicted(s: State, u: real, coin: Tx): (t: State)
    requires |s.weights| == NumSignals && 0.0 <= u < 1.0
    ensures |s.history| == 0 ==> t == s
    ensures |t.history| == |s.history| && Classes(t.history) == Classes(s.history)
    ensures forall i :: 0 <= i < |s.history| ==> t.history[i].session == s.history[i].session
    ensures t.weights == s.weights && t.lastProcessed == s.lastProcessed
    ensures t.stats.wins == s.stats.wins && t.stats.losses == s.stats.losses
    ensures |s.history| > 0 ==>
      && t.prediction.session == s.history[|s.history| - 1].session + 1
      && t.stats.lastPredictedSession == t.prediction.session
      && t.stats.lastPred == Some(t.prediction.tx)
      && MinConfidence <= t.prediction.confidence <= MaxConfidence
      && WellFormedScores(t.prediction.scores, t.prediction.tx)
  {
    if |s.history| == 0 then s
    else
      var p := Forecast(s.history, s.weights, u, coin);
      var hist := SortRecentDice(s.history, p.tx);
      s.(history := hist,
         rik := Newest(hist, RikWindow),
         prediction := p,
         stats := s.stats.(lastPred := Some(p.tx), lastScorePred := p.scores, lastPredictedSession := p.session))
  }

  /**
   * One poll with a fetched batch: ignored unless accepted, otherwise
   * absorbed and followed by one new forecast. Afterwards the same batch is
   * no longer accepted, so delivering it again changes nothing.
   */
  function Step(s: State, batch: seq<Record>, u: real, coin: Tx): (t: State)
    requires |s.weights| == NumSignals && 0.0 <= u < 1.0
    ensures !Accepts(s.history, s.lastProcessed, batch) ==> t == s
    ensures Accepts(s.history, s.lastProcessed, batch) ==> t.lastProcessed == batch[|batch| - 1].session
    ensures !Accepts(t.history, t.lastProcessed, batch)
  {
    if Accepts(s.history, s.lastProcessed, batch) then Predicted(Absorb(s, batch), u, coin) else s
  }

  /** Every poll keeps the engine's invariant. */
  lemma StepKeepsConsistent(s: State, batch: seq<Record>, u: real, coin: Tx)
    requires Consistent(s) && 0.0 <= u < 1.0
    ensures Consistent(Step(s, batch, u, coin))
  {
    if Accepts(s.history, s.lastProcessed, batch) {
      var a := Absorb(s, batch);
      var t := Predicted(a, u, coin);
      assert t.history[|t.history| - 1].session == batch[|batch| - 1].session;
    }
  }

  /** Delivering the same batch twice is delivering it once. */
  lemma RedeliveryChangesNothing(s: State, batch: seq<Record>, u: real, coin: Tx, u': real, coin': Tx)
    requires |s.weights| == NumSignals && 0.0 <= u < 1.0 && 0.0 <= u' < 1.0
    ensures Step(Step(s, batch, u, coin), batch, u', coin') == Step(s, batch, u, coin)
  {
    var t := Step(s, batch, u, coin);
    assert |t.weights| == NumSignals;
  }

  /**
   * After the first batch, an accepted batch counts a round exactly when its
   * newest session is the one right after the last processed session (the
   * session the cached forecast was made for), and counts a win exactly when
   * the forecast class also matches.
   */
  lemma ScoringCountsOnlyTheForecastRound(s: State, batch: seq<Record>, u: real, coin: Tx)
    requires Consistent(s) && 0.0 <= u < 1.0
    requires Accepts(s.history, s.lastProcessed, batch) && |s.history| > 0
    ensures var t := Step(s, batch, u, coin);
      var latest := batch[|batch| - 1];
      var hit := latest.session == s.lastProcessed + 1;
      && t.stats.wins + t.stats.losses == s.stats.wins + s.stats.losses + (if hit then 1 else 0)
      && t.stats.wins == s.stats.wins + (if hit && latest.tx == s.prediction.tx then 1 else 0)
  {
    var a := Absorb(s, batch);
    assert a.stats == Resolve(s.stats, batch[|batch| - 1]);
  }

  class PredictionEngine {
    /** `sessionHistory`, oldest first. */
    var history: seq<Record>
    /** `lastProcessedSession` */
    var lastProcessed: int
    /** `predictionStats` */
    var stats: Stats
    /** `currentPrediction` */
    var prediction: Prediction
    /** `rikResults`: the newest 60 records, newest first, sharing their dice with the history. */
    var rik: seq<Record>
    /** The `weight` field of each entry of `ALL_ALGORITHMS`, in table order. */
    const weights: array<real>

    /** The globals as a value. */
    function Snapshot(): State
      reads this, weights
    {
      State(history, lastProcessed, stats, prediction, rik, weights[..])
    }

    predicate Valid()
      reads this, weights
    {
      weights.Length == NumSignals && Consistent(Snapshot())
    }

    constructor ()
      ensures Valid() && fresh(weights)
      ensures Snapshot() == Initial()
    {
      history := [];
      lastProcessed := 0;
      stats := InitialStats;
      prediction := InitialPrediction;
      rik := [];
      weights := new real[NumSignals](_ => InitialWeight);
    }

    /** `updateAlgorithmWeights(actualTx)`: every signal judged on the current history. */
    method UpdateAlgorithmWeights(actual: Tx)
      requires weights.Length == NumSignals
      modifies weights
      ensures weights[..] == Reweighted(old(weights[..]), history, actual)
    {
      for k := 0 to NumSignals
        invariant forall i :: 0 <= i < k ==> weights[i] == NewWeight(old(weights[i]), Vote(i, history), actual)
        invariant forall i :: k <= i < NumSignals ==> weights[i] == old(weights[i])
      {
        var pred := Evaluate(k, history);
        if pred.None? {
          weights[k] := RealMax(MinWeight, weights[k] * Decay);
        } else {
          var w := if pred.value == actual then weights[k] * Reward else weights[k] * Penalty;
          w := RealMin(w, MaxWeight);
          weights[k] := RealMax(MinWeight, w);
        }
      }
    }

    /** `analyzePrediction()`; coin stands for the class drawn at random when every signal abstains on an empty history. */
    method AnalyzePrediction(coin: Tx) returns (v: Verdict)
      requires weights.Length == NumSignals
      ensures v == Analyze(history, weights[..], coin)
    {
      var votesT, votesX, totalWeight := CastVotes(history, weights[..]);
      AnalyzeIsDecision(history, weights[..], coin);
      if totalWeight == 0.0 {
        var lastTx := if |history| > 0 then history[|history| - 1].tx else coin;
        return Verdict(lastTx, FallbackConfidence);
      }
      var predicted := if votesT > votesX then T else X;
      var winningVote := if votesT > votesX then votesT else votesX;
      var baseConf := winningVote / totalWeight;
      var flips := CountFlips(Classes(LastN(history, StabilityWindow)));
      v := Verdict(predicted, Confidence(baseConf, flips));
    }

    /**
     * `predictAdvancedScores(sessionHistory, tx)`, u being the value
     * `Math.random()` returned. Counting sorts the dice of every counted
     * record of the window in place; the newest-first window shares those
     * records and shows the sorted dice too.
     */
    method PredictAdvancedScores(tx: Tx, u: real) returns (picks: seq<int>)
      requires 0.0 <= u < 1.0
      modifies this
      ensures picks == Picks(old(history), tx, u)
      ensures Snapshot() == old(Snapshot()).(history := SortRecentDice(old(history), tx),
                                            rik := Newest(SortRecentDice(old(history), tx), RikWindow))
    {
      var h := history;
      var freq, pairFreq, sorted := TallyWindow(h, tx);
      picks := ChooseScores(h, tx, u, freq, pairFreq);
      Redisplay(sorted);
    }

    /** The history with its dice sorted, seen through the newest-first window that shares its records. */
    method Redisplay(sorted: seq<Record>)
      modifies this
      ensures Snapshot() == old(Snapshot()).(history := sorted, rik := Newest(sorted, RikWindow))
    {
      history := sorted;
      rik := Newest(sorted, RikWindow);
    }

    /** `calculateNextPrediction()`: nothing happens on an empty history. */
    method CalculateNextPrediction(u: real, coin: Tx)
      requires weights.Length == NumSignals && 0.0 <= u < 1.0
      modifies this
      ensures Snapshot() == Predicted(old(Snapshot()), u, coin)
    {
      if |history| == 0 {
        return;
      }
      var p := ComputeForecast(u, coin);
      CachePrediction(p);
    }

    /**
     * Lines 210-219 of `calculateNextPrediction()` on a non-empty history:
     * the verdict, then the totals for its class, for the session after the
     * newest one. Counting the totals sorts the dice of the counted records.
     */
    method ComputeForecast(u: real, coin: Tx) returns (p: Prediction)
      requires weights.Length == NumSignals && |history| > 0 && 0.0 <= u < 1.0
      modifies this
      ensures p == Forecast(old(history), weights[..], u, coin)
      ensures Snapshot() == old(Snapshot()).(history := SortRecentDice(old(history), p.tx),
                                            rik := Newest(SortRecentDice(old(history), p.tx), RikWindow))
    {
      ghost var h, w := history, weights[..];
      var aiResult := AnalyzePrediction(coin);
      var last := history[|history| - 1];
      var predictedScores := PredictAdvancedScores(aiResult.tx, u);
      p := Prediction(aiResult.tx, aiResult.confidence, predictedScores, last.session + 1);
      assert weights[..] == w;
      ForecastOf(h, w, u, coin, aiResult, predictedScores);
      assert p == Forecast(h, w, u, coin);
    }

    /** Caches forecast p and records it in the statistics for the next round. */
    method CachePrediction(p: Prediction)
      modifies this
      ensures Snapshot() == old(Snapshot()).(prediction := p,
        stats := old(stats).(lastPred := Some(p.tx), lastScorePred := p.scores, lastPredictedSession := p.session))
    {
      prediction := p;
      stats := stats.(lastPred := Some(p.tx), lastScorePred := p.scores, lastPredictedSession := p.session);
    }

    /**
     * The part of `updateData` after the fetch: `batch` is the list of new
     * records, parsed, filtered to three dice and sorted by session.
     */
    method Ingest(batch: seq<Record>, u: real, coin: Tx)
      requires Valid() && 0.0 <= u < 1.0
      modifies this, weights
      ensures Snapshot() == Step(old(Snapshot()), batch, u, coin)
      ensures Valid()
    {
      ghost var s := Snapshot();
      StepKeepsConsistent(s, batch, u, coin);
      if |batch| == 0 {
        return;
      }
      var latest := batch[|batch| - 1];
      if |history| == 0 || latest.session > lastProcessed {
        AbsorbBatch(batch);
        CalculateNextPrediction(u, coin);
      }
    }

    /**
     * Lines 253-269 of `updateData` for an accepted batch: the cached
     * forecast is scored and the weights updated on the old history, if there
     * was one, then the history, the newest-first window and the last
     * processed session are replaced.
     */
    method AbsorbBatch(batch: seq<Record>)
      requires weights.Length == NumSignals && |batch| > 0
      modifies this, weights
      ensures Snapshot() == Absorb(old(Snapshot()), batch)
    {
      var latest := batch[|batch| - 1];
      if |history| > 0 {
        var actualTx := latest.tx;
        var lastPred := stats.lastPred;
        if lastPred.Some? && stats.lastPredictedSession == latest.session {
          if lastPred.value == actualTx {
            stats := stats.(wins := stats.wins + 1);
          } else {
            stats := stats.(losses := stats.losses + 1);
          }
        }
        UpdateAlgorithmWeights(actualTx);
      }
      history := batch;
      rik := Newest(history, RikWindow);
      lastProcessed := latest.session;
    }
  }
}
