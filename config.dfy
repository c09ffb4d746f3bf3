/** Tunable constants of the simulation and the one piece of Java integer
    arithmetic the model needs exactly. */
module Config {

  /** A leaf narrower than this (or exactly this wide) is never split. */
  const QUAD_TREE_MIN_QUAD_SIZE: int := 20

  /** The height limit for splitting is a literal 10 in the tree code, not the
      width constant above. */
  const QUAD_TREE_MIN_QUAD_HEIGHT: int := 10

  /** radius = mass * MASS_TO_SIZE_MULTIPLIER */
  const MASS_TO_SIZE_MULTIPLIER: real := 0.01

  /** Step used by increaseMass / decreaseMass. */
  const NODE_MASS_CHANGE_RATE: real := 0.5

  /** Amount a body ages per simulation step. */
  const AGE_STEP: real := 0.01

  const SUN_MASS: real := 50000.0

  /** Java's `n / 2` on int: the quotient is truncated toward zero, so for a
      negative odd `n` it is one more than Dafny's Euclidean `n / 2`. */
  function JavaHalf(n: int): (h: int)
    ensures n >= 0 ==> h == n / 2
    ensures n - 1 <= 2 * h <= n + 1
    ensures n >= 0 ==> 2 * h <= n
    ensures n <= 0 ==> 2 * h >= n
  {
    if n >= 0 then n / 2 else -((-n) / 2)
  }
}
