/**
 * Outcome records of the three-dice game and the sequence helpers the
 * prediction engine applies to its history.
 */
module Outcomes {

  datatype Option<T> = None | Some(value: T)

  /** The binary class of a round: T (high, total >= 11) or X (low). */
  datatype Tx = T | X

  function Opposite(c: Tx): Tx
  {
    if c == T then X else T
  }

  /** One round as the engine keeps it: session number, total, class and the three dice. */
  datatype Record = Record(session: int, total: int, tx: Tx, dice: seq<int>)

  function Min(a: int, b: int): int
  {
    if a <= b then a else b
  }

  function Max(a: int, b: int): int
  {
    if a >= b then a else b
  }

  /** The classes of a history, oldest first, as each signal of apisicsun.js first extracts them. */
  function Classes(h: seq<Record>): seq<Tx>
  {
    seq(|h|, i requires 0 <= i < |h| => h[i].tx)
  }

  /** `lastN` of apisicsun.js: the last n elements, or all of them when there are fewer. */
  function LastN<A>(s: seq<A>, n: nat): (r: seq<A>)
    ensures |r| == Min(n, |s|)
    ensures forall i :: 0 <= i < |r| ==> r[i] == s[|s| - |r| + i]
  {
    s[Max(0, |s| - n)..]
  }

  function Reverse<A>(s: seq<A>): (r: seq<A>)
    ensures |r| == |s|
    ensures forall i :: 0 <= i < |s| ==> r[i] == s[|s| - 1 - i]
  {
    if s == [] then [] else [s[|s| - 1]] + Reverse(s[..|s| - 1])
  }

  /** The newest n elements, newest first: a reversed copy of the history, cut to n (the `rikResults` window). */
  function Newest<A>(h: seq<A>, n: nat): (r: seq<A>)
    ensures |r| == Min(n, |h|)
    ensures forall i :: 0 <= i < |r| ==> r[i] == h[|h| - 1 - i]
  {
    Reverse(h)[..Min(n, |h|)]
  }
}
