/**
 * The easing cursor: `Easing` in src/hfixnel.js and src/fixnel.js, `Bounce`
 * in src/main.js (the three are the same code). It holds t, b, c, d and a
 * curve; each `getValue()` evaluates the curve at the current t and then
 * advances t, until t exceeds d, after which it answers null for ever.
 */
module Cursors {
  import opened Wrappers
  import opened Timing

  /** What one `getValue()` call made at elapsed step `t` answers. */
  function ValueAt(k: Curve, t: int, b: real, c: real, d: int): (v: Option<real>)
    requires d > 0
    ensures v.None? <==> t > d
  {
    if t > d then None else Some(Eval(k, t as real, b, c, d as real))
  }

  /** The elapsed step after one `getValue()` call. */
  function Advance(t: int, d: int): int {
    if t > d then t else t + 1
  }

  /**
   * The answers of `n` consecutive `getValue()` calls starting at step `t`:
   * the i-th is the curve at step t + i while t + i <= d, and null after.
   */
  function Outputs(k: Curve, t: int, b: real, c: real, d: int, n: nat): (s: seq<Option<real>>)
    requires d > 0
    ensures |s| == n
    ensures forall i :: 0 <= i < n ==> (s[i].Some? <==> t + i <= d)
    ensures forall i :: 0 <= i < n && t + i <= d ==> s[i] == Some(Eval(k, (t + i) as real, b, c, d as real))
    decreases n
  {
    if n == 0 then [] else [ValueAt(k, t, b, c, d)] + Outputs(k, Advance(t, d), b, c, d, n - 1)
  }

  /**
   * The i-th call answers a value exactly when t + i <= d, and that value is
   * the curve at step t + i; every later call answers null. A cursor started
   * at t = 0 therefore yields exactly d + 1 values.
   */
  lemma {:induction false} OutputsShape(k: Curve, t: int, b: real, c: real, d: int, n: nat, i: nat)
    requires d > 0 && i < n
    ensures Outputs(k, t, b, c, d, n)[i].Some? <==> t + i <= d
    ensures t + i <= d ==> Outputs(k, t, b, c, d, n)[i] == Some(Eval(k, (t + i) as real, b, c, d as real))
    decreases i
  {
    if i > 0 {
      OutputsShape(k, Advance(t, d), b, c, d, n - 1, i - 1);
    }
  }

  class Easing {
    const curve: Curve
    var t: int
    const b: real
    const c: real
    const d: int

    predicate Valid() { d > 0 }

    /** How many more calls will answer a value. */
    ghost function Remaining(): nat
      reads this
    {
      if t > d then 0 else d + 1 - t
    }

    /** `new Easing(type, t, b, c, d)`; a missing type selects easeInQuad. */
    constructor (kind: Option<Curve>, t0: int, b0: real, c0: real, d0: int)
      requires d0 > 0
      ensures Valid() && t == t0 && b == b0 && c == c0 && d == d0
      ensures curve == kind.GetOr(InQuad)
    {
      curve := kind.GetOr(InQuad);
      t, b, c, d := t0, b0, c0, d0;
    }

    /** `getValue()`. */
    method Next() returns (v: Option<real>)
      requires Valid()
      modifies this
      ensures v == ValueAt(curve, old(t), b, c, d)
      ensures t == Advance(old(t), d)
      ensures v.Some? <==> old(Remaining()) > 0
      ensures Remaining() == if old(Remaining()) > 0 then old(Remaining()) - 1 else 0
    {
      if t > d {
        return None;
      }
      v := Some(Eval(curve, t as real, b, c, d as real));
      t := t + 1;
    }
  }
}
