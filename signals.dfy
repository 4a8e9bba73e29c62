/**
 * The signal library: five heuristics, each a total function from the
 * history (oldest first) to a predicted class or an abstention (None).
 * Signal k of `Vote` is entry k of the algorithm table, in table order.
 */
module Signals {
  import opened Outcomes

  const NumSignals: nat := 5

  /** Number of adjacent positions whose classes differ. */
  function Flips(s: seq<Tx>): (n: nat)
    ensures |s| <= 1 ==> n == 0
    ensures |s| > 0 ==> n < |s|
  {
    if |s| < 2 then 0
    else Flips(s[..|s| - 1]) + (if s[|s| - 2] != s[|s| - 1] then 1 else 0)
  }

  /**
   * The flip-counting loop, which walks over each adjacent pair and counts
   * the pairs whose classes differ, as written in the ChaosBreaker signal and in the ensemble's stability measure.
   */
  method CountFlips(s: seq<Tx>) returns (n: nat)
    ensures n == Flips(s)
  {
    n := 0;
    var i := 0;
    while i < |s| - 1
      invariant 0 <= i <= Max(0, |s| - 1)
      invariant n == Flips(s[..Min(i + 1, |s|)])
    {
      assert s[..i + 2][..i + 1] == s[..i + 1];
      if s[i] != s[i + 1] {
        n := n + 1;
      }
      i := i + 1;
    }
    assert s[..Min(i + 1, |s|)] == s;
  }

  /**
   * Length of the trailing run of equal classes. As in `algo_SmartBreak` of
   * apisicsun.js, the count starts at 1, so the empty history has run 1.
   */
  function Run(s: seq<Tx>): (r: nat)
    ensures 1 <= r
    ensures |s| <= 1 ==> r == 1
    ensures |s| > 0 ==> r <= |s|
  {
    if |s| < 2 || s[|s| - 2] != s[|s| - 1] then 1 else 1 + Run(s[..|s| - 1])
  }

  /** The trailing run is at least k long exactly when the last k classes all equal the last one. */
  lemma {:induction false} RunAtLeast(s: seq<Tx>, k: nat)
    requires |s| > 0 && k >= 1
    ensures Run(s) >= k <==> k <= |s| && forall j :: |s| - k <= j < |s| ==> s[j] == s[|s| - 1]
  {
    if k > 1 && |s| >= 2 && s[|s| - 2] == s[|s| - 1] {
      var p := s[..|s| - 1];
      RunAtLeast(p, k - 1);
      assert p[|p| - 1] == s[|s| - 1];
      if k <= |s| && forall j :: |s| - k <= j < |s| ==> s[j] == s[|s| - 1] {
        assert forall j :: |p| - (k - 1) <= j < |p| ==> p[j] == p[|p| - 1];
      }
    }
  }

  /** The run-counting loop of SmartBreak (from the second-to-last element backwards, stopping at the first change). */
  method CountRun(s: seq<Tx>) returns (run: nat)
    ensures run == Run(s)
  {
    run := 1;
    var i := |s| - 2;
    while i >= 0
      invariant |s| == 0 ==> i == -2 && run == 1
      invariant |s| > 0 ==> -1 <= i <= |s| - 2 && run == |s| - 1 - i
      invariant |s| > 0 ==> forall j :: i < j < |s| ==> s[j] == s[|s| - 1]
      decreases i
    {
      if s[i] == s[|s| - 1] {
        run := run + 1;
        i := i - 1;
      } else {
        break;
      }
    }
    if |s| > 0 {
      RunAtLeast(s, run);
      RunAtLeast(s, run + 1);
    }
  }

  /** TrendMaster: follow a streak (TT, XX) or a three-step alternation (TXT, XTX). */
  function TrendMaster(h: seq<Record>): (r: Option<Tx>)
    ensures r.Some? ==> |h| >= 5 && r.value == h[|h| - 1].tx
    ensures |h| >= 5 ==>
      (r.None? <==> h[|h| - 3].tx == h[|h| - 2].tx && h[|h| - 2].tx != h[|h| - 1].tx)
  {
    var tx := Classes(h);
    if |tx| < 5 then None
    else
      // a, b, c: the last three classes, which `algo_TrendMaster` compares as strings
      var a, b, c := tx[|tx| - 3], tx[|tx| - 2], tx[|tx| - 1];
      assert a == h[|h| - 3].tx && b == h[|h| - 2].tx && c == h[|h| - 1].tx;
      if (a == T && b == T && c == T) || (a == T && b == X && c == T) || (b == T && c == T) then Some(T)
      else if (a == X && b == X && c == X) || (a == X && b == T && c == X) || (b == X && c == X) then Some(X)
      else None
  }

  /** SmartBreak: bet against a streak of at least seven. */
  function SmartBreak(h: seq<Record>): (r: Option<Tx>)
    ensures r.Some? ==> |h| >= 7 && r.value == Opposite(h[|h| - 1].tx)
  {
    var tx := Classes(h);
    var run := Run(tx);
    if run >= 7 then Some(Opposite(tx[|tx| - 1])) else None
  }

  /** SmartBreak reverses exactly when the last seven classes are all the same. */
  lemma SmartBreakReversesLongRuns(h: seq<Record>)
    ensures SmartBreak(h) ==
      if |h| >= 7 && forall j :: |h| - 7 <= j < |h| ==> h[j].tx == h[|h| - 1].tx
      then Some(Opposite(h[|h| - 1].tx))
      else None
  {
    if |h| > 0 {
      var tx := Classes(h);
      assert forall j :: 0 <= j < |h| ==> tx[j] == h[j].tx;
      RunAtLeast(tx, 7);
    }
  }

  /** Pattern212: the chains TTXXT and XXTTX are continued one step. */
  function Pattern212(h: seq<Record>): (r: Option<Tx>)
    ensures r.Some? ==> |h| >= 5 && r.value == Opposite(h[|h| - 1].tx)
  {
    var tx := Classes(h);
    if |tx| < 5 then None
    else
      // the last five classes, which `algo_Pattern212` compares as one string
      var last5 := (tx[|tx| - 5], tx[|tx| - 4], tx[|tx| - 3], tx[|tx| - 2], tx[|tx| - 1]);
      if last5 == (T, T, X, X, T) then Some(X)
      else if last5 == (X, X, T, T, X) then Some(T)
      else None
  }

  /** Matrix3: on five or more records, repeat the class three rounds back. */
  function Matrix3(h: seq<Record>): (r: Option<Tx>)
    ensures r.Some? <==> |h| >= 5
    ensures r.Some? ==> r.value == h[|h| - 3].tx
  {
    if |h| < 5 then None else Some(h[|h| - 3].tx)
  }

  /**
   * ChaosBreaker: when the last eight rounds flip at least six times, bet
   * against the last. Six flips need seven records.
   */
  function ChaosBreaker(h: seq<Record>): (r: Option<Tx>)
    ensures r.Some? ==> |h| >= 7 && r.value == Opposite(h[|h| - 1].tx)
  {
    var recent := Classes(LastN(h, 8));
    if Flips(recent) >= 6 then Some(Opposite(recent[|recent| - 1])) else None
  }

  /**
   * The algorithm table, by position: TrendMaster, SmartBreak, Pattern212,
   * Matrix3, ChaosBreaker. No signal votes on fewer than five records, and the
   * run and flip signals not on fewer than seven. TrendMaster follows the
   * last class, Matrix3 repeats the class three rounds back, and the other
   * three bet against the last class.
   */
  function Vote(k: nat, h: seq<Record>): (r: Option<Tx>)
    requires k < NumSignals
    ensures r.Some? ==> |h| >= 5
    ensures r.Some? && (k == 1 || k == 4) ==> |h| >= 7
    ensures r.Some? && k == 0 ==> r.value == h[|h| - 1].tx
    ensures r.Some? && k == 3 ==> r.value == h[|h| - 3].tx
    ensures r.Some? && (k == 1 || k == 2 || k == 4) ==> r.value == Opposite(h[|h| - 1].tx)
  {
    if k == 0 then TrendMaster(h)
    else if k == 1 then SmartBreak(h)
    else if k == 2 then Pattern212(h)
    else if k == 3 then Matrix3(h)
    else ChaosBreaker(h)
  }

  /** Evaluates signal k, running the counting loops of SmartBreak and ChaosBreaker. */
  method Evaluate(k: nat, h: seq<Record>) returns (p: Option<Tx>)
    requires k < NumSignals
    ensures p == Vote(k, h)
  {
    if k == 1 {
      var tx := Classes(h);
      var run := CountRun(tx);
      p := if run >= 7 then Some(Opposite(tx[|tx| - 1])) else None;
    } else if k == 4 {
      var recent := Classes(LastN(h, 8));
      var flips := CountFlips(recent);
      p := if flips >= 6 then Some(Opposite(recent[|recent| - 1])) else None;
    } else {
      p := Vote(k, h);
    }
  }

  /**
   * Every signal abstains on fewer than five records; SmartBreak and
   * ChaosBreaker abstain on fewer than seven.
   */
  lemma ShortHistoryAbstains(h: seq<Record>)
    ensures |h| < 5 ==> TrendMaster(h).None? && Pattern212(h).None? && Matrix3(h).None?
    ensures |h| < 7 ==> SmartBreak(h).None? && ChaosBreaker(h).None?
  {
  }

  /**
   * Five alternating rounds T X T X T: TrendMaster and Matrix3 say T, the
   * other three abstain (four flips are too few for ChaosBreaker).
   */
  lemma AlternatingFive(h: seq<Record>)
    requires Classes(h) == [T, X, T, X, T]
    ensures TrendMaster(h) == Some(T) && Matrix3(h) == Some(T)
    ensures SmartBreak(h).None? && Pattern212(h).None? && ChaosBreaker(h).None?
  {
    var s := Classes(h);
    assert |h| == 5;
    assert LastN(h, 8) == h;
    assert s[..4] == [T, X, T, X] && s[..4][..3] == [T, X, T] && s[..4][..3][..2] == [T, X];
    assert Flips([T, X]) == 1;
    assert Flips([T, X, T]) == 2;
    assert Flips([T, X, T, X]) == 3;
    assert Flips(s) == 4;
  }
}
