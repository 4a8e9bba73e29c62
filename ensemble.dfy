/**
 * The ensemble voter and the confidence adjuster: a weighted tally of the
 * signals' votes, ties to X, and a confidence percentage blended from the
 * winning share and the stability of the last fifteen rounds, clamped to
 * [40, 92].
 */
module Ensemble {
  import opened Outcomes
  import opened Signals

  datatype Verdict = Verdict(tx: Tx, confidence: int)

  /** Confidence reported when every signal abstains. */
  const FallbackConfidence: int := 45
  const MinConfidence: int := 40
  const MaxConfidence: int := 92
  /** Length of the window whose flips measure stability. */
  const StabilityWindow: nat := 15
  const Damping: real := 0.2

  /** Every weight is strictly positive. */
  predicate Positive(w: seq<real>)
  {
    forall i :: 0 <= i < |w| ==> w[i] > 0.0
  }

  /** What the algorithm table says on history h: entry k is signal k's vote. */
  function Ballot(h: seq<Record>): (b: seq<Option<Tx>>)
    ensures |b| == NumSignals
    ensures forall k {:trigger Vote(k, h)} :: 0 <= k < NumSignals ==> b[k] == Vote(k, h)
  {
    seq(NumSignals, k requires 0 <= k < NumSignals => Vote(k, h))
  }

  /** Weight behind class c among the first k votes of ballot b (`votes[c]`). */
  function Support(b: seq<Option<Tx>>, w: seq<real>, c: Tx, k: nat): real
    requires k <= |b| == |w|
  {
    if k == 0 then 0.0
    else Support(b, w, c, k - 1) + (if b[k - 1] == Some(c) then w[k - 1] else 0.0)
  }

  /**
   * Weight of the first k votes that are not abstentions (`totalWeight`); it
   * is the two classes' support added up.
   */
  function Turnout(b: seq<Option<Tx>>, w: seq<real>, k: nat): (r: real)
    requires k <= |b| == |w|
    ensures r == Support(b, w, T, k) + Support(b, w, X, k)
  {
    if k == 0 then 0.0
    else
      assert b[k - 1].Some? ==> b[k - 1].value.T? || b[k - 1].value.X?;
      Turnout(b, w, k - 1) + (if b[k - 1].Some? then w[k - 1] else 0.0)
  }

  /** `Math.round`: halves go up. */
  function Round(x: real): int
  {
    (x + 0.5).Floor
  }

  /**
   * The adjusted confidence, in percent: the winning share plus a fifth of
   * (stability - 1/2), where stability is 1 - flips/15, rounded and clamped.
   */
  function Confidence(share: real, flips: nat): (r: int)
    ensures MinConfidence <= r <= MaxConfidence
  {
    var stability := 1.0 - flips as real / StabilityWindow as real;
    var adjusted := share + (stability - 0.5) * Damping;
    var percent := Round(adjusted * 100.0);
    Min(MaxConfidence, Max(MinConfidence, percent))
  }

  /**
   * Lines 178-202 of `analyzePrediction`, from the tallies on: the last class
   * at 45 when no signal voted (`coin` standing for the random class drawn
   * when there is no last class either), else the class with the strictly
   * larger tally (X on a tie) at the adjusted confidence.
   */
  function Decide(h: seq<Record>, coin: Tx, votesT: real, votesX: real, totalWeight: real): (v: Verdict)
    ensures MinConfidence <= v.confidence <= MaxConfidence
    ensures totalWeight == 0.0 && |h| > 0 ==> v == Verdict(h[|h| - 1].tx, FallbackConfidence)
    ensures totalWeight != 0.0 ==> (v.tx == T <==> votesT > votesX)
  {
    if totalWeight == 0.0 then
      Verdict(if |h| > 0 then h[|h| - 1].tx else coin, FallbackConfidence)
    else
      var prediction := if votesT > votesX then T else X;
      var winningVote := if votesT > votesX then votesT else votesX;
      var flips := Flips(Classes(LastN(h, StabilityWindow)));
      Verdict(prediction, Confidence(winningVote / totalWeight, flips))
  }

  /**
   * The `forEach` over the algorithm table (lines 170-176) from vote k of
   * ballot b on, carrying the running tallies, followed by the decision.
   */
  function Poll(h: seq<Record>, b: seq<Option<Tx>>, w: seq<real>, coin: Tx, k: nat, votesT: real, votesX: real, totalWeight: real): (v: Verdict)
    requires k <= |b| == |w|
    ensures MinConfidence <= v.confidence <= MaxConfidence
    decreases |b| - k
  {
    if k == |b| then Decide(h, coin, votesT, votesX, totalWeight)
    else
      Poll(h, b, w, coin, k + 1,
           if b[k] == Some(T) then votesT + w[k] else votesT,
           if b[k] == Some(X) then votesX + w[k] else votesX,
           if b[k].Some? then totalWeight + w[k] else totalWeight)
  }

  /** `analyzePrediction` on history h with weights w. */
  function Analyze(h: seq<Record>, w: seq<real>, coin: Tx): (v: Verdict)
    requires |w| == NumSignals
    ensures MinConfidence <= v.confidence <= MaxConfidence
  {
    Poll(h, Ballot(h), w, coin, 0, 0.0, 0.0, 0.0)
  }

  /** Polling from vote k on, with the tallies of the first k votes, ends in the decision on the full tallies. */
  lemma {:induction false} PollTallies(h: seq<Record>, b: seq<Option<Tx>>, w: seq<real>, coin: Tx, k: nat)
    requires k <= |b| == |w|
    ensures Poll(h, b, w, coin, k, Support(b, w, T, k), Support(b, w, X, k), Turnout(b, w, k)) ==
      Decide(h, coin, Support(b, w, T, |b|), Support(b, w, X, |b|), Turnout(b, w, |b|))
    decreases |b| - k
  {
    if k < |b| {
      var votesT, votesX, total := Support(b, w, T, k), Support(b, w, X, k), Turnout(b, w, k);
      var votesT' := if b[k] == Some(T) then votesT + w[k] else votesT;
      var votesX' := if b[k] == Some(X) then votesX + w[k] else votesX;
      var total' := if b[k].Some? then total + w[k] else total;
      assert votesT' == Support(b, w, T, k + 1) && votesX' == Support(b, w, X, k + 1);
      assert total' == Turnout(b, w, k + 1);
      assert Poll(h, b, w, coin, k, votesT, votesX, total) == Poll(h, b, w, coin, k + 1, votesT', votesX', total');
      PollTallies(h, b, w, coin, k + 1);
    }
  }

  /** The verdict is the decision on the weighted tallies of the whole ballot. */
  lemma AnalyzeIsDecision(h: seq<Record>, w: seq<real>, coin: Tx)
    requires |w| == NumSignals
    ensures Analyze(h, w, coin) ==
      Decide(h, coin, Support(Ballot(h), w, T, NumSignals), Support(Ballot(h), w, X, NumSignals), Turnout(Ballot(h), w, NumSignals))
  {
    PollTallies(h, Ballot(h), w, coin, 0);
  }

  lemma {:induction false} SupportNonNegative(b: seq<Option<Tx>>, w: seq<real>, c: Tx, k: nat)
    requires k <= |b| == |w| && Positive(w)
    ensures Support(b, w, c, k) >= 0.0
  {
    if k > 0 {
      SupportNonNegative(b, w, c, k - 1);
    }
  }

  /** With positive weights, the turnout is positive exactly when some vote is not an abstention. */
  lemma {:induction false} TurnoutPositive(b: seq<Option<Tx>>, w: seq<real>, k: nat)
    requires k <= |b| == |w| && Positive(w)
    ensures Turnout(b, w, k) >= 0.0
    ensures Turnout(b, w, k) > 0.0 <==> exists i :: 0 <= i < k && b[i].Some?
  {
    if k > 0 {
      TurnoutPositive(b, w, k - 1);
    }
  }

  /**
   * When every signal abstains on a non-empty history, the verdict repeats the
   * last class with confidence 45.
   */
  lemma SilentEnsembleRepeatsLast(h: seq<Record>, w: seq<real>, coin: Tx)
    requires |w| == NumSignals && |h| > 0
    requires forall i :: 0 <= i < NumSignals ==> Vote(i, h).None?
    ensures Analyze(h, w, coin) == Verdict(h[|h| - 1].tx, FallbackConfidence)
  {
    AnalyzeIsDecision(h, w, coin);
    var b := Ballot(h);
    assert Turnout(b, w, NumSignals) == 0.0 by {
      var k := 0;
      while k < NumSignals
        invariant 0 <= k <= NumSignals && Turnout(b, w, k) == 0.0
      {
        assert b[k] == Vote(k, h);
        k := k + 1;
      }
    }
  }

  /** When |h| > 0, the random class is never drawn: the verdict does not depend on it. */
  lemma CoinNeverDrawn(h: seq<Record>, w: seq<real>)
    requires |w| == NumSignals && |h| > 0
    ensures Analyze(h, w, T) == Analyze(h, w, X)
  {
    AnalyzeIsDecision(h, w, T);
    AnalyzeIsDecision(h, w, X);
  }

  /**
   * With positive weights and at least one vote, the verdict is T exactly when
   * T's tally is strictly larger: a tie goes to X.
   */
  lemma TiesGoToX(h: seq<Record>, w: seq<real>, coin: Tx)
    requires |w| == NumSignals && Positive(w)
    requires exists i :: 0 <= i < NumSignals && Vote(i, h).Some?
    ensures Analyze(h, w, coin).tx == T <==> Support(Ballot(h), w, T, NumSignals) > Support(Ballot(h), w, X, NumSignals)
  {
    AnalyzeIsDecision(h, w, coin);
    TurnoutPositive(Ballot(h), w, NumSignals);
  }

  /**
   * With positive weights and at least one vote, the total weight is positive
   * and the winning class's tally is at least half of it.
   */
  lemma ShareAtLeastHalf(h: seq<Record>, w: seq<real>)
    requires |w| == NumSignals && Positive(w)
    requires exists i :: 0 <= i < NumSignals && Vote(i, h).Some?
    ensures var b := Ballot(h);
      var votesT, votesX := Support(b, w, T, NumSignals), Support(b, w, X, NumSignals);
      Turnout(b, w, NumSignals) > 0.0 &&
      (if votesT > votesX then votesT else votesX) / Turnout(b, w, NumSignals) >= 0.5
  {
    var b := Ballot(h);
    TurnoutPositive(b, w, NumSignals);
    SupportNonNegative(b, w, T, NumSignals);
    SupportNonNegative(b, w, X, NumSignals);
    var votesT, votesX := Support(b, w, T, NumSignals), Support(b, w, X, NumSignals);
    var winning := if votesT > votesX then votesT else votesX;
    assert winning * 2.0 >= Turnout(b, w, NumSignals);
    HalfShare(winning, Turnout(b, w, NumSignals));
  }

  /** A part that is at least half of a positive total has a share of at least one half. */
  lemma HalfShare(winning: real, total: real)
    requires total > 0.0 && winning * 2.0 >= total
    ensures winning / total >= 0.5
  {
    assert winning / total * total == winning;
  }

  /**
   * A share of at least one half and at most fourteen flips give at least
   * 41 percent: the lower clamp at 40 never takes effect.
   */
  lemma ConfidenceFloorUnreached(share: real, flips: nat)
    requires share >= 0.5 && flips <= StabilityWindow - 1
    ensures Confidence(share, flips) >= MinConfidence + 1
  {
    var stability := 1.0 - flips as real / StabilityWindow as real;
    assert stability >= 1.0 / 15.0;
    var adjusted := share + (stability - 0.5) * Damping;
    assert adjusted * 100.0 >= 41.0;
  }

  /**
   * When at least one signal votes (weights positive), the confidence is an
   * integer percentage in [41, 92].
   */
  lemma VotedConfidence(h: seq<Record>, w: seq<real>, coin: Tx)
    requires |w| == NumSignals && Positive(w)
    requires exists i :: 0 <= i < NumSignals && Vote(i, h).Some?
    ensures MinConfidence + 1 <= Analyze(h, w, coin).confidence <= MaxConfidence
  {
    AnalyzeIsDecision(h, w, coin);
    var b := Ballot(h);
    var votesT := Support(b, w, T, NumSignals);
    var votesX := Support(b, w, X, NumSignals);
    var totalWeight := Turnout(b, w, NumSignals);
    var winningVote := if votesT > votesX then votesT else votesX;
    ShareAtLeastHalf(h, w);
    ConfidenceFloorUnreached(winningVote / totalWeight, Flips(Classes(LastN(h, StabilityWindow))));
  }

  /**
   * The voting loop of `analyzePrediction()`: each signal that does not
   * abstain adds its weight to the class it names and to the total.
   */
  method CastVotes(h: seq<Record>, w: seq<real>) returns (votesT: real, votesX: real, totalWeight: real)
    requires |w| == NumSignals
    ensures votesT == Support(Ballot(h), w, T, NumSignals)
    ensures votesX == Support(Ballot(h), w, X, NumSignals)
    ensures totalWeight == Turnout(Ballot(h), w, NumSignals)
  {
    votesT, votesX, totalWeight := 0.0, 0.0, 0.0;
    for k := 0 to NumSignals
      invariant votesT == Support(Ballot(h), w, T, k)
      invariant votesX == Support(Ballot(h), w, X, k)
      invariant totalWeight == Turnout(Ballot(h), w, k)
    {
      votesT, votesX, totalWeight := CastVote(h, w, k, votesT, votesX, totalWeight);
    }
  }

  /** One turn of the voting loop: signal k is evaluated and its weight added where it votes. */
  method CastVote(h: seq<Record>, w: seq<real>, k: nat, votesT: real, votesX: real, totalWeight: real)
    returns (votesT': real, votesX': real, totalWeight': real)
    requires k < NumSignals && |w| == NumSignals
    requires votesT == Support(Ballot(h), w, T, k)
    requires votesX == Support(Ballot(h), w, X, k)
    requires totalWeight == Turnout(Ballot(h), w, k)
    ensures votesT' == Support(Ballot(h), w, T, k + 1)
    ensures votesX' == Support(Ballot(h), w, X, k + 1)
    ensures totalWeight' == Turnout(Ballot(h), w, k + 1)
  {
    votesT', votesX', totalWeight' := votesT, votesX, totalWeight;
    var pred := Evaluate(k, h);
    assert pred == Ballot(h)[k];
    if pred.Some? {
      if pred.value == T {
        votesT' := votesT + w[k];
      } else {
        votesX' := votesX + w[k];
      }
      totalWeight' := totalWeight + w[k];
    }
  }
}
