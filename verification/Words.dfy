/** Unsigned 64-bit arithmetic as Go performs it, and the signed score of the external sorted set. */
module Words {
  const TWO_63: nat := 0x8000_0000_0000_0000
  const TWO_64: nat := 0x1_0000_0000_0000_0000

  function Wrap(n: int): nat {
    n % TWO_64
  }

  function Add(a: nat, b: nat): nat {
    Wrap(a + b)
  }

  function Sub(a: nat, b: nat): nat {
    Wrap(a - b)
  }

  function Mul(a: nat, b: nat): nat {
    Wrap(a * b)
  }

  function Min(a: nat, b: nat): nat {
    if a <= b then a else b
  }

  /** The conversion of an unsigned number to the sorted set's signed 64-bit score. */
  function Score(n: nat): int {
    if n < TWO_63 then n else n - TWO_64
  }

  lemma AddExact(a: nat, b: nat)
    requires a + b < TWO_64
    ensures Add(a, b) == a + b
  {
  }

  lemma SubExact(a: nat, b: nat)
    requires b <= a < TWO_64
    ensures Sub(a, b) == a - b
  {
  }

  /** A difference of small numbers keeps its sign through the wrap and the cast:
      a "negative" bound is a negative score, below the score of every small block number. */
  lemma ScoreOfDifference(a: nat, b: nat)
    requires a < TWO_63 && b < TWO_63
    ensures Score(Sub(a, b)) == a - b
  {
    if a < b {
      assert (a - b) % TWO_64 == a - b + TWO_64;
    }
  }
}
