/**
 * Small shared vocabulary: an Option type for the fields and lookups that
 * JavaScript leaves `undefined`, and the numeric helpers (Math.round,
 * Math.ceil, Math.abs, Math.max, Math.min) on the `real` quantities of the
 * dashboard.
 */
module Common {

  datatype Option<T> = None | Some(value: T)

  /** Math.abs on a real. */
  function Abs(x: real): real
  {
    if x < 0.0 then -x else x
  }

  /** Math.max on two reals. */
  function Max(a: real, b: real): real
  {
    if a < b then b else a
  }

  /** Math.min on two reals. */
  function Min(a: real, b: real): real
  {
    if a < b then a else b
  }

  /**
   * Math.round: the nearest integer, halves rounded up (towards +infinity).
   * The contract pins the result down uniquely.
   */
  function RoundHalfUp(x: real): (n: int)
    ensures x - 0.5 < n as real <= x + 0.5
  {
    (x + 0.5).Floor
  }

  /** Math.ceil: the least integer not below x. */
  function Ceil(x: real): (n: int)
    ensures x <= n as real < x + 1.0
  {
    if x.Floor as real == x then x.Floor else x.Floor + 1
  }

  /** Math.round is monotone. */
  lemma RoundMonotone(x: real, y: real)
    requires x <= y
    ensures RoundHalfUp(x) <= RoundHalfUp(y)
  {
    assert RoundHalfUp(x) as real <= x + 0.5;
    assert y - 0.5 < RoundHalfUp(y) as real;
  }

  /**
   * Array.prototype.findIndex: the position of the first element that
   * satisfies p, or -1 when there is none.
   */
  function FirstIndex<T>(s: seq<T>, p: T -> bool): (i: int)
    ensures -1 <= i < |s|
    ensures i >= 0 ==> p(s[i]) && forall j :: 0 <= j < i ==> !p(s[j])
    ensures i == -1 ==> forall j :: 0 <= j < |s| ==> !p(s[j])
  {
    if |s| == 0 then -1
    else if p(s[0]) then 0
    else
      var k := FirstIndex(s[1..], p);
      if k == -1 then -1 else k + 1
  }

  /** A draw of Math.random() lies in [0, 1). */
  predicate InUnit(u: real)
  {
    0.0 <= u < 1.0
  }

  /** `Math.floor(Math.random() * n)`: an index into a list of n > 0 elements. */
  function PickIndex(u: real, n: int): (k: int)
    requires InUnit(u) && n > 0
    ensures 0 <= k < n
    ensures k as real <= u * n as real < k as real + 1.0
  {
    assert u * n as real < n as real by {
      assert (1.0 - u) * n as real > 0.0;
    }
    (u * n as real).Floor
  }
}
