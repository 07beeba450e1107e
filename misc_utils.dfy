/**
 * The helpers of `misc-utils.js` that the WebGL layer calls. That file is not part of this
 * model; these are the definitions the model assumes for them.
 */
module MiscUtils {
  import opened BeamTypes

  /** 2 to the power `k`. */
  function Pow2(k: nat): (r: nat)
    ensures r >= 1
  {
    if k == 0 then 1 else 2 * Pow2(k - 1)
  }

  /** `isPowerOf2(n)`, computed by halving: 1, or an even number whose half is a power of two. */
  predicate IsPowerOf2(n: int)
    decreases if n > 0 then n else 0
  {
    n >= 1 && (n == 1 || (n % 2 == 0 && IsPowerOf2(n / 2)))
  }

  /** The halving test accepts exactly the numbers 2^k. */
  lemma {:induction false} IsPowerOf2Exactly(n: int)
    ensures IsPowerOf2(n) <==> exists k: nat :: n == Pow2(k)
    decreases if n > 0 then n else 0
  {
    if IsPowerOf2(n) {
      if n == 1 {
        assert n == Pow2(0);
      } else {
        IsPowerOf2Exactly(n / 2);
        var k: nat :| n / 2 == Pow2(k);
        assert n == Pow2(k + 1);
      }
    }
    if exists k: nat :: n == Pow2(k) {
      var k: nat :| n == Pow2(k);
      if k > 0 {
        assert n / 2 == Pow2(k - 1);
        IsPowerOf2Exactly(n / 2);
      }
    }
  }

  /** `getNumComponents(type)`: the number of components a slot of that type carries per vertex. */
  function NumComponents(t: SchemaType): (r: int)
    ensures 1 <= r <= 4
    ensures r == 4 <==> t == Vec4
    ensures r == 3 <==> t == Vec3
    ensures r == 2 <==> t == Vec2
  {
    match t
    case Vec4 => 4
    case Vec3 => 3
    case Vec2 => 2
    case _ => 1
  }
}
