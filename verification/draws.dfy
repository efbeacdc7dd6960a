/** The model of the generator's random source.

    The program draws every random choice as `Math.floor(Math.random() * n)`.
    Here a random source is a caller-supplied stream of reals, each in [0, 1),
    and nothing probabilistic is claimed about it. */
module Draws {

  /** A stream of `Math.random()` results, the k-th call being `rand(k)`. */
  type Stream = nat -> real

  predicate UnitDraw(r: real) {
    0.0 <= r < 1.0
  }

  ghost predicate ValidStream(rand: Stream) {
    forall k: nat :: UnitDraw(rand(k))
  }

  /** `Math.floor(r * n)`: a uniform choice among 0 .. n-1 when r is uniform. */
  function Scaled(r: real, n: int): (k: int)
    requires UnitDraw(r)
    requires n >= 1
    ensures 0 <= k < n
  {
    assert 0.0 <= r * n as real < n as real;
    (r * n as real).Floor
  }

  /** Every outcome 0 .. n-1 of `Scaled` is reached by some draw, so a statement
      proved for all valid draws covers every choice the program can make. */
  lemma ScaledOnto(n: int, k: int)
    requires n >= 1
    requires 0 <= k < n
    ensures UnitDraw(k as real / n as real)
    ensures Scaled(k as real / n as real, n) == k
  {
  }

  /** The per-date commit count `floor(random * (max - min + 1)) + min`. */
  function DrawCount(r: real, minPerDay: int, maxPerDay: int): (c: int)
    requires UnitDraw(r)
    requires minPerDay <= maxPerDay
    ensures minPerDay <= c <= maxPerDay
  {
    Scaled(r, maxPerDay - minPerDay + 1) + minPerDay
  }
}
