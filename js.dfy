/**
 * The few pieces of JavaScript semantics the game relies on: the remainder
 * operator `%`, which truncates toward zero (unlike Dafny's Euclidean `%`),
 * and arrays shared by reference and changed in place.
 */
module Js {
  import opened Wrappers

  /** `Math.trunc`: rounds toward zero. */
  function Trunc(x: real): (t: int)
    ensures x >= 0.0 ==> t == x.Floor
    ensures x < 0.0 ==> t == -((-x).Floor)
  {
    if x >= 0.0 then x.Floor else -((-x).Floor)
  }

  /** `a % d` on numbers, for a positive divisor: the result carries the sign of `a`. */
  function Rem(a: real, d: real): real
    requires d > 0.0
  {
    a - d * (Trunc(a / d) as real)
  }

  /** `a % d` on integers, for a positive divisor: the result carries the sign of `a`. */
  function RemInt(a: int, d: int): (r: int)
    requires d > 0
    ensures -d < r < d
    ensures a >= 0 ==> r == a % d
    ensures a < 0 ==> r <= 0
  {
    if a >= 0 then a % d else -((-a) % d)
  }

  /**
   * `Array.prototype.findIndex`, as an Option: the index of the first element
   * satisfying `p`, or None when no element does.
   */
  function FindIndex<T>(s: seq<T>, p: T -> bool): (r: Option<nat>)
    ensures r.Some? ==> r.value < |s| && p(s[r.value])
    ensures r.Some? ==> forall j | 0 <= j < r.value :: !p(s[j])
    ensures r.None? <==> forall j | 0 <= j < |s| :: !p(s[j])
  {
    if |s| == 0 then None
    else if p(s[0]) then Some(0)
    else match FindIndex(s[1..], p)
      case None => None
      case Some(i) => Some(i + 1)
  }

  /** `Array.prototype.find`: the first element satisfying `p`, or None. */
  function Find<T>(s: seq<T>, p: T -> bool): (r: Option<T>)
    ensures r.Some? <==> FindIndex(s, p).Some?
    ensures r.Some? ==> r.value == s[FindIndex(s, p).value]
  {
    match FindIndex(s, p)
    case None => None
    case Some(i) => Some(s[i])
  }

  /** Searching a concatenation searches the left part first. */
  lemma {:induction false} FindIndexAppend<T>(a: seq<T>, b: seq<T>, p: T -> bool)
    ensures FindIndex(a + b, p) ==
      match FindIndex(a, p)
      case Some(i) => Some(i)
      case None => match FindIndex(b, p) case Some(j) => Some(|a| + j) case None => None
  {
    if |a| > 0 {
      assert (a + b)[1..] == a[1..] + b;
      FindIndexAppend(a[1..], b, p);
    } else {
      assert a + b == b;
    }
  }

  /** After a part without a match, the first match is the next part's, if it has one. */
  lemma FindPastMiss<T>(a: seq<T>, b: seq<T>, c: seq<T>, p: T -> bool)
    requires Find(a, p).None?
    ensures Find(b, p).Some? ==> Find(a + b + c, p) == Find(b, p)
    ensures Find(b, p).None? ==> Find(a + b, p).None?
  {
    FindIndexAppend(a, b, p);
    FindIndexAppend(a + b, c, p);
    if FindIndex(b, p).Some? {
      var k := FindIndex(b, p).value;
      assert (a + b + c)[|a| + k] == b[k];
    }
  }

  /** A JavaScript array object: every holder of the reference sees in-place changes. */
  class ArrayRef<T> {
    var items: seq<T>

    constructor (items: seq<T>)
      ensures this.items == items
    {
      this.items := items;
    }
  }
}
