/**
 * The score-tier picker (`predictAdvancedScores`): three candidate totals for
 * the predicted class, taken from the last 100 rounds of that class: the most
 * frequent total, a high-payout total (one that most often came with a pair
 * or a triple), and a random pick among the rest.
 */
module Scores {
  import opened Outcomes

  /** Totals a prediction of class tx may name: 11..17 for T, 4..10 for X. */
  function ValidScores(tx: Tx): seq<int>
  {
    if tx == T then [11, 12, 13, 14, 15, 16, 17] else [4, 5, 6, 7, 8, 9, 10]
  }

  /** The totals of each class that most often come with a pair or a triple. */
  function HighPayout(tx: Tx): seq<int>
  {
    if tx == T then [14, 15, 16, 17] else [4, 5, 6, 7]
  }

  /** Window of the history the picker looks at. */
  const ScoreWindow: nat := 100

  predicate Ascending(s: seq<int>)
  {
    forall i, j :: 0 <= i < j < |s| ==> s[i] <= s[j]
  }

  predicate Increasing(s: seq<int>)
  {
    forall i, j :: 0 <= i < j < |s| ==> s[i] < s[j]
  }

  predicate Distinct(s: seq<int>)
  {
    forall i, j :: 0 <= i < j < |s| ==> s[i] != s[j]
  }

  /** Inserts x into an ascending sequence. */
  function Insert(x: int, s: seq<int>): (r: seq<int>)
    requires Ascending(s)
    ensures Ascending(r)
    ensures multiset(r) == multiset(s) + multiset{x}
  {
    if s == [] || x <= s[0] then [x] + s
    else
      var rest := Insert(x, s[1..]);
      HeadBelowRest(x, s, rest);
      PrependAscending(s[0], rest);
      [s[0]] + rest
  }

  /** Inserting a new element into an increasing sequence keeps it increasing. */
  lemma {:induction false} InsertIncreasing(x: int, s: seq<int>)
    requires Ascending(s) && Increasing(s) && x !in s
    ensures Increasing(Insert(x, s))
  {
    if s == [] || x <= s[0] {
      assert forall y :: y in s ==> x < y by {
        forall y | y in s ensures x < y {
          var j :| 0 <= j < |s| && s[j] == y;
          assert s[0] <= s[j];
        }
      }
      PrependIncreasing(x, s);
    } else {
      var rest := Insert(x, s[1..]);
      InsertIncreasing(x, s[1..]);
      HeadBelowRest(x, s, rest);
      PrependIncreasing(s[0], rest);
    }
  }

  /** Putting a lower bound in front keeps a sequence ascending. */
  lemma PrependAscending(a: int, s: seq<int>)
    requires Ascending(s) && forall y :: y in s ==> a <= y
    ensures Ascending([a] + s)
  {
    var r := [a] + s;
    forall i, j | 0 <= i < j < |r| ensures r[i] <= r[j] {
      if i == 0 { assert r[j] == s[j - 1] && s[j - 1] in s; } else { assert r[i] == s[i - 1]; }
    }
  }

  /** Putting a strict lower bound in front keeps a sequence increasing. */
  lemma PrependIncreasing(a: int, s: seq<int>)
    requires Increasing(s) && forall y :: y in s ==> a < y
    ensures Increasing([a] + s)
  {
    var r := [a] + s;
    forall i, j | 0 <= i < j < |r| ensures r[i] < r[j] {
      if i == 0 { assert r[j] == s[j - 1] && s[j - 1] in s; } else { assert r[i] == s[i - 1]; }
    }
  }

  /** Every element of s[1..] with x inserted lies at or above s[0] when x does. */
  lemma HeadBelowRest(x: int, s: seq<int>, rest: seq<int>)
    requires Ascending(s) && |s| > 0 && s[0] < x
    requires multiset(rest) == multiset(s[1..]) + multiset{x}
    ensures multiset(s) + multiset{x} == multiset([s[0]] + rest)
    ensures forall y :: y in rest ==> s[0] <= y
    ensures Increasing(s) ==> forall y :: y in rest ==> s[0] < y
  {
    assert s == [s[0]] + s[1..];
    forall y | y in rest
      ensures s[0] <= y
      ensures Increasing(s) ==> s[0] < y
    {
      assert y in multiset(rest);
      if y != x {
        assert y in multiset(s[1..]);
        var j :| 0 <= j < |s[1..]| && s[1..][j] == y;
        assert s[j + 1] == y;
      }
    }
  }

  /** Numeric ascending sort: the final sort of the picks, and the sort of each counted record's dice. */
  function SortAsc(s: seq<int>): (r: seq<int>)
    ensures Ascending(r)
    ensures multiset(r) == multiset(s)
  {
    if s == [] then []
    else
      assert s == [s[0]] + s[1..];
      Insert(s[0], SortAsc(s[1..]))
  }

  /** Sorting distinct elements gives an increasing sequence. */
  lemma {:induction false} SortIncreasing(s: seq<int>)
    requires Distinct(s)
    ensures Increasing(SortAsc(s))
  {
    if s != [] {
      assert s == [s[0]] + s[1..];
      SortIncreasing(s[1..]);
      assert forall j :: 0 <= j < |s| - 1 ==> s[1..][j] == s[j + 1] != s[0];
      assert s[0] !in multiset(s[1..]);
      assert s[0] !in multiset(SortAsc(s[1..]));
      InsertIncreasing(s[0], SortAsc(s[1..]));
    }
  }

  /** Sorted dice show a pair or a triple when a neighbour repeats. */
  function HasPair(dice: seq<int>): bool
  {
    |dice| == 3 && (dice[0] == dice[1] || dice[1] == dice[2])
  }

  /** After the sort, the neighbour test finds every pair of equal dice. */
  lemma SortedDiceShowEveryPair(dice: seq<int>)
    requires |dice| == 3
    ensures HasPair(SortAsc(dice)) <==> dice[0] == dice[1] || dice[1] == dice[2] || dice[0] == dice[2]
  {
    var r := SortAsc(dice);
    assert |r| == 3 by {
      assert |multiset(r)| == |multiset(dice)|;
    }
    NeighboursShowPairs(r, dice);
  }

  /** An ascending arrangement of three dice has equal neighbours exactly when two dice are equal. */
  lemma NeighboursShowPairs(r: seq<int>, dice: seq<int>)
    requires |r| == 3 && |dice| == 3 && Ascending(r) && multiset(r) == multiset(dice)
    ensures HasPair(r) <==> dice[0] == dice[1] || dice[1] == dice[2] || dice[0] == dice[2]
  {
    assert r[0] <= r[1] <= r[2];
    var a, b, c := dice[0], dice[1], dice[2];
    RepeatedValue(r, dice);
    RepeatedValue(dice, r);
  }

  /** A value shown twice by one arrangement of three values is shown twice by any other. */
  lemma RepeatedValue(p: seq<int>, q: seq<int>)
    requires |p| == 3 && |q| == 3 && multiset(p) == multiset(q)
    ensures p[0] == p[1] || p[1] == p[2] || p[0] == p[2] ==> q[0] == q[1] || q[1] == q[2] || q[0] == q[2]
  {
    if p[0] == p[1] || p[1] == p[2] || p[0] == p[2] {
      var v := if p[0] == p[1] || p[0] == p[2] then p[0] else p[1];
      OccurrencesOfThree(p, v);
      OccurrencesOfThree(q, v);
    }
  }

  /** How often v occurs among three values. */
  lemma OccurrencesOfThree(s: seq<int>, v: int)
    requires |s| == 3
    ensures multiset(s)[v] == (if s[0] == v then 1 else 0) + (if s[1] == v then 1 else 0) + (if s[2] == v then 1 else 0)
  {
    assert s == [s[0]] + [s[1]] + [s[2]];
  }

  /** A record the picker counts: of the predicted class, with a valid total, and (for pairs) showing a pair. */
  predicate Counted(r: Record, tx: Tx, pairsOnly: bool)
  {
    r.tx == tx && r.total in ValidScores(tx) && (!pairsOnly || HasPair(SortAsc(r.dice)))
  }

  /** One more occurrence of total k: a missing key starts at one. */
  function Bump(m: map<int, nat>, k: int): map<int, nat>
  {
    m[k := if k in m then m[k] + 1 else 1]
  }

  /**
   * The `freq` (pairsOnly false) or `pairFreq` (pairsOnly true) dictionary
   * built over a window: its keys are exactly the totals of the counted
   * records, and each count is positive and at most the window's length.
   */
  function Tally(window: seq<Record>, tx: Tx, pairsOnly: bool): (m: map<int, nat>)
    ensures forall s :: s in m ==> s in ValidScores(tx) && 0 < m[s] <= |window|
  {
    if window == [] then map[]
    else
      var m := Tally(window[..|window| - 1], tx, pairsOnly);
      var r := window[|window| - 1];
      if Counted(r, tx, pairsOnly) then Bump(m, r.total) else m
  }

  /** Extending the window by one record bumps that record's total when it is counted. */
  lemma TallyStep(window: seq<Record>, k: nat, tx: Tx, pairsOnly: bool)
    requires k < |window|
    ensures Tally(window[..k + 1], tx, pairsOnly) ==
      if Counted(window[k], tx, pairsOnly) then Bump(Tally(window[..k], tx, pairsOnly), window[k].total)
      else Tally(window[..k], tx, pairsOnly)
  {
    assert window[..k + 1][..k] == window[..k];
  }

  /** The keys of the dictionary are exactly the totals of the counted records. */
  lemma {:induction false} TallyKeys(window: seq<Record>, tx: Tx, pairsOnly: bool, s: int)
    ensures s in Tally(window, tx, pairsOnly) <==>
      exists i :: 0 <= i < |window| && Counted(window[i], tx, pairsOnly) && window[i].total == s
  {
    if window != [] {
      var front := window[..|window| - 1];
      TallyKeys(front, tx, pairsOnly, s);
      assert forall i :: 0 <= i < |front| ==> front[i] == window[i];
    }
  }

  /** A total that shows a pair is counted at least as often as a total. */
  lemma {:induction false} PairsNeverOutnumberTotals(window: seq<Record>, tx: Tx, s: int)
    requires s in Tally(window, tx, true)
    ensures s in Tally(window, tx, false) && Tally(window, tx, true)[s] <= Tally(window, tx, false)[s]
  {
    if window != [] {
      var front := window[..|window| - 1];
      if s in Tally(front, tx, true) {
        PairsNeverOutnumberTotals(front, tx, s);
      }
    }
  }

  /**
   * The first candidate in the dictionary's keys ordered by falling count:
   * integer keys are listed ascending and the sort is stable, so it is the
   * candidate with the largest count, the smallest one among equal counts.
   */
  function Best(cands: seq<int>, m: map<int, nat>): (r: Option<int>)
    ensures r.None? <==> forall c :: c in cands ==> c !in m
    ensures r.Some? ==> r.value in cands && r.value in m
    ensures r.Some? ==> forall c :: c in cands && c in m ==> m[c] <= m[r.value]
    ensures r.Some? && Increasing(cands) ==> forall c :: c in cands && c in m && c < r.value ==> m[c] < m[r.value]
  {
    if cands == [] then None
    else
      var rest := Best(cands[1..], m);
      assert forall c :: c in cands ==> c == cands[0] || c in cands[1..];
      if cands[0] in m && (rest.None? || m[cands[0]] >= m[rest.value]) then Some(cands[0]) else rest
  }

  /** The candidates not yet picked, in their order. */
  function Without(cands: seq<int>, picks: seq<int>): (r: seq<int>)
    ensures forall x :: x in r <==> x in cands && x !in picks
    ensures Increasing(cands) ==> Increasing(r)
  {
    if cands == [] then []
    else
      var rest := Without(cands[1..], picks);
      assert forall x :: x in cands ==> x == cands[0] || x in cands[1..];
      assert Increasing(cands) ==> Increasing([cands[0]] + rest) by {
        if Increasing(cands) {
          PrependIncreasing(cands[0], rest);
        }
      }
      if cands[0] in picks then rest else [cands[0]] + rest
  }

  /** The first candidate not yet picked, if any. */
  function FirstNotIn(cands: seq<int>, picks: seq<int>): (r: Option<int>)
    ensures r.None? <==> forall x :: x in cands ==> x in picks
    ensures r.Some? ==> r.value in cands && r.value !in picks
    ensures r.Some? && Increasing(cands) ==> forall x :: x in cands && x < r.value ==> x in picks
  {
    if cands == [] then None
    else if cands[0] in picks then
      assert forall x :: x in cands ==> x == cands[0] || x in cands[1..];
      FirstNotIn(cands[1..], picks)
    else Some(cands[0])
  }

  /** The index chosen by a random draw u in [0, 1) among n remaining totals: u times n, rounded down. */
  function Pick(u: real, n: nat): (i: nat)
    requires 0.0 <= u < 1.0 && n > 0
    ensures i < n
  {
    var x := u * n as real;
    assert 0.0 <= x < n as real;
    x.Floor
  }

  /** The fallback loop: add the first valid total not yet picked until there are three. */
  function FillUp(valid: seq<int>, picks: seq<int>): seq<int>
    decreases 3 - |picks|
  {
    if |picks| >= 3 then picks
    else match FirstNotIn(valid, picks)
      case Some(f) => FillUp(valid, picks + [f])
      case None => picks
  }

  /** The most frequent total among the last 100 rounds of class tx. */
  function Hottest(h: seq<Record>, tx: Tx): Option<int>
  {
    Best(ValidScores(tx), Tally(LastN(h, ScoreWindow), tx, false))
  }

  /**
   * The high-payout pick when `core` holds the first pick: the high-payout
   * total not yet picked that most often showed a pair, else the first
   * high-payout total not yet picked.
   */
  function PayoutPick(h: seq<Record>, tx: Tx, core: seq<int>): (r: Option<int>)
    ensures |core| <= 1 ==> r.Some? && r.value in HighPayout(tx) && r.value !in core
  {
    assert |core| <= 1 ==> HighPayout(tx)[0] !in core || HighPayout(tx)[1] !in core;
    var paired := Best(Without(HighPayout(tx), core), Tally(LastN(h, ScoreWindow), tx, true));
    if paired.Some? then paired else FirstNotIn(HighPayout(tx), core)
  }

  /**
   * The first picks of `predictAdvancedScores(h, tx)`: the most frequent
   * total, when the window holds any round of class tx, then the high-payout
   * pick. The branch that would take the second most frequent total when no
   * high-payout total is available cannot run: with at most one total picked
   * a high-payout total is always left, as PayoutPick's contract shows.
   */
  function FirstPicks(h: seq<Record>, tx: Tx): seq<int>
  {
    var hot := Hottest(h, tx);
    var core := if hot.Some? then [hot.value] else [];
    core + [PayoutPick(h, tx, core).value]
  }

  /**
   * The picks completed, with u the value `Math.random()` returned: a random
   * valid total not yet picked, then the fallback loop.
   */
  function Completed(tx: Tx, payout: seq<int>, u: real): seq<int>
    requires 0.0 <= u < 1.0
  {
    var valid := ValidScores(tx);
    var remaining := Without(valid, payout);
    var drawn := if |remaining| > 0 then payout + [remaining[Pick(u, |remaining|)]] else payout;
    FillUp(valid, drawn)
  }

  /**
   * `predictAdvancedScores(h, tx)`: the first three picks in ascending order,
   * always three distinct ascending totals of the class, one high-payout.
   */
  function Picks(h: seq<Record>, tx: Tx, u: real): (r: seq<int>)
    requires 0.0 <= u < 1.0
    ensures WellFormedScores(r, tx)
  {
    var first := FirstPicks(h, tx);
    FirstPicksShape(h, tx);
    CompletedShape(tx, first, u);
    var filled := Completed(tx, first, u);
    SortedShape(filled, tx, first[|first| - 1]);
    SortAsc(filled[..Min(3, |filled|)])
  }

  /** Three distinct ascending totals of the class, one of them high-payout. */
  predicate WellFormedScores(s: seq<int>, tx: Tx)
  {
    && |s| == 3
    && Increasing(s)
    && (forall x :: x in s ==> x in ValidScores(tx))
    && (exists x :: x in s && x in HighPayout(tx))
  }

  /** Valid totals are 11..17 for T and 4..10 for X. */
  lemma ValidScoresRange(tx: Tx, x: int)
    ensures x in ValidScores(tx) <==> if tx == T then 11 <= x <= 17 else 4 <= x <= 10
  {
  }

  /** Every high-payout total is a valid total of its class. */
  lemma HighPayoutIsValid(tx: Tx)
    ensures forall x :: x in HighPayout(tx) ==> x in ValidScores(tx)
  {
  }

  /** Of three distinct totals, at most two picks leave one out. */
  lemma OneOfThreeLeft(v: seq<int>, p: seq<int>)
    requires |v| >= 3 && Distinct(v[..3]) && |p| <= 2
    ensures v[0] !in p || v[1] !in p || v[2] !in p
  {
    if |p| == 2 {
      assert p == [p[0], p[1]];
    } else if |p| == 1 {
      assert p == [p[0]];
    }
  }

  /** The fallback loop tops a short list of distinct valid totals up to three. */
  lemma {:induction false} FillUpShape(tx: Tx, p: seq<int>)
    requires |p| <= 3 && Distinct(p) && forall x :: x in p ==> x in ValidScores(tx)
    ensures var f := FillUp(ValidScores(tx), p);
      |f| == 3 && Distinct(f) && (forall x :: x in f ==> x in ValidScores(tx)) &&
      forall x :: x in p ==> x in f
    decreases 3 - |p|
  {
    var valid := ValidScores(tx);
    if |p| < 3 {
      OneOfThreeLeft(valid, p);
      var first := FirstNotIn(valid, p);
      var q := p + [first.value];
      assert forall x :: x in q <==> x in p || x == first.value;
      assert Distinct(q) by {
        forall i, j | 0 <= i < j < |q| ensures q[i] != q[j] {
          if j == |p| { assert q[i] in p; } else { assert q[i] == p[i] && q[j] == p[j]; }
        }
      }
      FillUpShape(tx, q);
    }
  }

  /** Sorting three distinct totals keeps them and makes them increasing. */
  lemma SortedPicks(f: seq<int>)
    requires |f| == 3 && Distinct(f)
    ensures var r := SortAsc(f); |r| == 3 && Increasing(r) && forall x :: x in r <==> x in f
  {
    var r := SortAsc(f);
    assert |r| == 3 by {
      assert |multiset(r)| == |multiset(f)|;
    }
    SortIncreasing(f);
    forall x ensures x in r <==> x in f {
      assert x in r <==> x in multiset(r);
      assert x in f <==> x in multiset(f);
    }
  }

  /**
   * The first picks are one or two distinct valid totals: the most frequent
   * total when there is one, and last the high-payout pick.
   */
  lemma FirstPicksShape(h: seq<Record>, tx: Tx)
    ensures var p := FirstPicks(h, tx);
      && 1 <= |p| <= 2 && Distinct(p) && (forall x :: x in p ==> x in ValidScores(tx))
      && p[|p| - 1] in HighPayout(tx)
      && (Hottest(h, tx).Some? ==> Hottest(h, tx).value in p)
      && var hot := Hottest(h, tx);
         p[|p| - 1] == PayoutPick(h, tx, if hot.Some? then [hot.value] else []).value
  {
    HighPayoutIsValid(tx);
  }

  /** The random pick adds a third distinct valid total. */
  lemma DrawnShape(tx: Tx, payout: seq<int>, u: real)
    requires 0.0 <= u < 1.0
    requires 1 <= |payout| <= 2 && Distinct(payout) && forall x :: x in payout ==> x in ValidScores(tx)
    ensures var remaining := Without(ValidScores(tx), payout);
      |remaining| > 0 &&
      var drawn := payout + [remaining[Pick(u, |remaining|)]];
      |drawn| <= 3 && Distinct(drawn) && (forall x :: x in drawn ==> x in ValidScores(tx)) &&
      forall x :: x in payout ==> x in drawn
  {
    var valid := ValidScores(tx);
    OneOfThreeLeft(valid, payout);
    var remaining := Without(valid, payout);
    assert |remaining| > 0 by {
      if valid[0] !in payout { assert valid[0] in remaining; }
      else if valid[1] !in payout { assert valid[1] in remaining; }
      else { assert valid[2] in remaining; }
    }
    var x := remaining[Pick(u, |remaining|)];
    assert x in remaining;
    var drawn := payout + [x];
    assert Distinct(drawn) by {
      forall i, j | 0 <= i < j < |drawn| ensures drawn[i] != drawn[j] {
        if j == |payout| { assert drawn[i] in payout; } else { assert drawn[i] == payout[i] && drawn[j] == payout[j]; }
      }
    }
  }

  /** The random pick and the fallback loop complete one or two distinct valid totals to three, keeping them. */
  lemma CompletedShape(tx: Tx, payout: seq<int>, u: real)
    requires 0.0 <= u < 1.0
    requires 1 <= |payout| <= 2 && Distinct(payout) && forall x :: x in payout ==> x in ValidScores(tx)
    ensures var f := Completed(tx, payout, u);
      |f| == 3 && Distinct(f) && (forall x :: x in f ==> x in ValidScores(tx)) && forall x :: x in payout ==> x in f
  {
    DrawnShape(tx, payout, u);
    var remaining := Without(ValidScores(tx), payout);
    FillUpShape(tx, payout + [remaining[Pick(u, |remaining|)]]);
  }

  /**
   * The picks contain the most frequent total (when the window holds any
   * round of the class) and the high-payout pick.
   */
  lemma PicksShape(h: seq<Record>, tx: Tx, u: real)
    requires 0.0 <= u < 1.0
    ensures Hottest(h, tx).Some? ==> Hottest(h, tx).value in Picks(h, tx, u)
    ensures var hot := Hottest(h, tx);
      PayoutPick(h, tx, if hot.Some? then [hot.value] else []).Some? &&
      PayoutPick(h, tx, if hot.Some? then [hot.value] else []).value in Picks(h, tx, u)
  {
    var p := FirstPicks(h, tx);
    FirstPicksShape(h, tx);
    CompletedShape(tx, p, u);
    SortedShape(Completed(tx, p, u), tx, p[|p| - 1]);
  }

  /** Sorting three distinct valid totals, one of them high-payout, gives well-formed totals with the same members. */
  lemma SortedShape(f: seq<int>, tx: Tx, payout: int)
    requires |f| == 3 && Distinct(f) && (forall x :: x in f ==> x in ValidScores(tx))
    requires payout in f && payout in HighPayout(tx)
    ensures var r := SortAsc(f[..Min(3, |f|)]);
      WellFormedScores(r, tx) && forall x :: x in r <==> x in f
  {
    assert f[..Min(3, |f|)] == f;
    SortedPicks(f);
  }

  /** The record as the picker leaves it: its dice sorted if it was counted. */
  function Touched(r: Record, tx: Tx): Record
  {
    if Counted(r, tx, false) then r.(dice := SortAsc(r.dice)) else r
  }

  /**
   * The history after the picker's in-place dice sort ran on every counted
   * record of the last 100: only the order of some records' dice changes.
   */
  function SortRecentDice(h: seq<Record>, tx: Tx): (r: seq<Record>)
    ensures |r| == |h|
    ensures forall i :: 0 <= i < |h| ==>
      && r[i].session == h[i].session && r[i].total == h[i].total && r[i].tx == h[i].tx
      && multiset(r[i].dice) == multiset(h[i].dice)
    ensures Classes(r) == Classes(h)
  {
    var r := seq(|h|, i requires 0 <= i < |h| => if i >= |h| - ScoreWindow then Touched(h[i], tx) else h[i]);
    assert Classes(r) == Classes(h);
    r
  }

  /**
   * The `forEach` callback of `predictAdvancedScores`: a record of the
   * predicted class with a valid total bumps `freq`, has its dice sorted, and
   * bumps `pairFreq` when the sorted dice show a pair.
   */
  method CountRecord(r: Record, tx: Tx, freq: map<int, nat>, pairFreq: map<int, nat>)
    returns (freq': map<int, nat>, pairFreq': map<int, nat>, r': Record)
    ensures freq' == if Counted(r, tx, false) then Bump(freq, r.total) else freq
    ensures pairFreq' == if Counted(r, tx, true) then Bump(pairFreq, r.total) else pairFreq
    ensures r' == Touched(r, tx)
  {
    freq', pairFreq', r' := freq, pairFreq, r;
    if r.tx == tx && r.total in ValidScores(tx) {
      freq' := Bump(freq, r.total);
      var dice := SortAsc(r.dice);
      r' := r.(dice := dice);
      if |dice| == 3 && (dice[0] == dice[1] || dice[1] == dice[2]) {
        pairFreq' := Bump(pairFreq, r.total);
      }
    }
  }

  /**
   * The state of the counting loop after the records of h before index j,
   * from start on: the two dictionaries of those records, and the history
   * with exactly their dice sorted where counted.
   */
  ghost predicate Counting(h: seq<Record>, tx: Tx, start: nat, j: nat,
                           freq: map<int, nat>, pairFreq: map<int, nat>, hist: seq<Record>)
  {
    && start <= j <= |h| && |hist| == |h|
    && freq == Tally(h[start..j], tx, false)
    && pairFreq == Tally(h[start..j], tx, true)
    && forall i :: 0 <= i < |h| ==> hist[i] == if start <= i < j then Touched(h[i], tx) else h[i]
  }

  /** Before the first turn nothing is counted and nothing sorted. */
  lemma CountingStarts(h: seq<Record>, tx: Tx, start: nat)
    requires start <= |h|
    ensures Counting(h, tx, start, start, map[], map[], h)
  {
    assert h[start..start] == [];
  }

  /** One turn of the counting loop: record j is counted and its dice sorted. */
  method CountNext(h: seq<Record>, tx: Tx, start: nat, j: nat,
                   freq: map<int, nat>, pairFreq: map<int, nat>, hist: seq<Record>)
    returns (freq': map<int, nat>, pairFreq': map<int, nat>, hist': seq<Record>)
    requires j < |h| && Counting(h, tx, start, j, freq, pairFreq, hist)
    ensures Counting(h, tx, start, j + 1, freq', pairFreq', hist')
  {
    var window := h[start..j + 1];
    assert window[..j - start] == h[start..j];
    assert window[j - start] == h[j];
    TallyStep(window, j - start, tx, false);
    TallyStep(window, j - start, tx, true);
    assert window[..j - start + 1] == window;
    var touched;
    freq', pairFreq', touched := CountRecord(h[j], tx, freq, pairFreq);
    hist' := hist[j := touched];
  }

  /** Once every record of the window is counted, the loop has built the window's dictionaries and sorted its dice. */
  lemma CountingDone(h: seq<Record>, tx: Tx, freq: map<int, nat>, pairFreq: map<int, nat>, hist: seq<Record>)
    requires Counting(h, tx, Max(0, |h| - ScoreWindow), |h|, freq, pairFreq, hist)
    ensures freq == Tally(LastN(h, ScoreWindow), tx, false)
    ensures pairFreq == Tally(LastN(h, ScoreWindow), tx, true)
    ensures hist == SortRecentDice(h, tx)
  {
    assert h[Max(0, |h| - ScoreWindow)..|h|] == LastN(h, ScoreWindow);
  }

  /**
   * The counting loop of `predictAdvancedScores` over the last 100 records:
   * it builds `freq` and `pairFreq` and returns the history with the dice of
   * every counted record sorted.
   */
  method TallyWindow(h: seq<Record>, tx: Tx) returns (freq: map<int, nat>, pairFreq: map<int, nat>, hist: seq<Record>)
    ensures freq == Tally(LastN(h, ScoreWindow), tx, false)
    ensures pairFreq == Tally(LastN(h, ScoreWindow), tx, true)
    ensures hist == SortRecentDice(h, tx)
  {
    var start := Max(0, |h| - ScoreWindow);
    freq, pairFreq, hist := map[], map[], h;
    var j := start;
    CountingStarts(h, tx, start);
    while j < |h|
      invariant Counting(h, tx, start, j, freq, pairFreq, hist)
    {
      freq, pairFreq, hist := CountNext(h, tx, start, j, freq, pairFreq, hist);
      j := j + 1;
    }
    CountingDone(h, tx, freq, pairFreq, hist);
  }

  /** The fallback loop of `predictAdvancedScores`: the first unpicked valid total is added until there are three. */
  method FillFallback(valid: seq<int>, drawn: seq<int>) returns (picks: seq<int>)
    ensures picks == FillUp(valid, drawn)
  {
    picks := drawn;
    while |picks| < 3
      invariant FillUp(valid, picks) == FillUp(valid, drawn)
      decreases 3 - |picks|
    {
      var fallback := FirstNotIn(valid, picks);
      if fallback.Some? {
        picks := picks + [fallback.value];
      } else {
        break;
      }
    }
  }

  /**
   * The choice of the three totals from the two dictionaries of the window
   * of h: the most frequent total, the high-payout pick, a random remaining
   * total, the fallback loop, then the first three in ascending order.
   */
  method ChooseScores(h: seq<Record>, tx: Tx, u: real, freq: map<int, nat>, pairFreq: map<int, nat>) returns (picks: seq<int>)
    requires 0.0 <= u < 1.0
    requires freq == Tally(LastN(h, ScoreWindow), tx, false)
    requires pairFreq == Tally(LastN(h, ScoreWindow), tx, true)
    ensures picks == Picks(h, tx, u)
    ensures WellFormedScores(picks, tx)
  {
    var valid := ValidScores(tx);
    var hot := Best(valid, freq);
    var core: seq<int> := if hot.Some? then [hot.value] else [];
    picks := core;
    var pairCandidate := Best(Without(HighPayout(tx), picks), pairFreq);
    if pairCandidate.None? {
      pairCandidate := FirstNotIn(HighPayout(tx), picks);
    }
    assert pairCandidate == PayoutPick(h, tx, core);
    if pairCandidate.Some? {
      picks := picks + [pairCandidate.value];
    } else {
      // lines 119-121: a high-payout total is always left, so this cannot run
      assert false;
    }
    assert picks == FirstPicks(h, tx);
    var remaining := Without(valid, picks);
    if |remaining| > 0 {
      var randomPick := remaining[Pick(u, |remaining|)];
      picks := picks + [randomPick];
    }
    picks := FillFallback(valid, picks);
    picks := SortAsc(picks[..Min(3, |picks|)]);
    PicksShape(h, tx, u);
  }
}
