/**
 * The adaptive weight store: one weight per entry of the algorithm table,
 * rewarded or punished after every accepted batch according to what the
 * signal would have said on the history before the batch.
 */
module Weights {
  import opened Outcomes
  import opened Signals

  const MinWeight: real := 0.1
  const MaxWeight: real := 5.0
  const InitialWeight: real := 1.0
  /** Factor for a signal that abstained. */
  const Decay: real := 0.98
  /** Factor for a signal that was right. */
  const Reward: real := 1.3
  /** Factor for a signal that was wrong. */
  const Penalty: real := 0.6

  function RealMin(a: real, b: real): real
  {
    if a <= b then a else b
  }

  function RealMax(a: real, b: real): real
  {
    if a >= b then a else b
  }

  /**
   * The new weight of a signal that predicted `pred` when the outcome was
   * `actual`. It never drops below MinWeight, never exceeds MaxWeight unless
   * it already did, only a right prediction can raise it (up to the cap), and
   * an abstention or a wrong prediction never raises it (except back to the floor).
   */
  function NewWeight(w: real, pred: Option<Tx>, actual: Tx): (r: real)
    ensures MinWeight <= r
    ensures w <= MaxWeight ==> r <= MaxWeight
    ensures pred == Some(actual) ==> r >= w || r == MaxWeight
    ensures pred != Some(actual) ==> r <= w || r == MinWeight
  {
    if pred.None? then RealMax(MinWeight, w * Decay)
    else
      var scaled := if pred.value == actual then w * Reward else w * Penalty;
      RealMax(MinWeight, RealMin(scaled, MaxWeight))
  }

  /** Every weight lies in [MinWeight, MaxWeight]. */
  predicate InBand(w: seq<real>)
  {
    forall i :: 0 <= i < |w| ==> MinWeight <= w[i] <= MaxWeight
  }

  /** The whole table after one update, every signal judged on the history h. */
  function Reweighted(w: seq<real>, h: seq<Record>, actual: Tx): (r: seq<real>)
    requires |w| == NumSignals
    ensures |r| == NumSignals
    ensures InBand(w) ==> InBand(r)
  {
    seq(NumSignals, i requires 0 <= i < NumSignals => NewWeight(w[i], Vote(i, h), actual))
  }
}
