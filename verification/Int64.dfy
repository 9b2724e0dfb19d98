/** Two's complement arithmetic of 64-bit integers. */
module Int64 {

  const TWO_63 := 0x8000_0000_0000_0000
  const TWO_64 := 0x1_0000_0000_0000_0000

  /** The signed 64-bit integer that agrees with `x` modulo 2^64. */
  function Wrap(x: int): (r: int)
    ensures -TWO_63 <= r < TWO_63
    ensures -TWO_63 <= x < TWO_63 ==> r == x
  {
    (x + TWO_63) % TWO_64 - TWO_63
  }

  lemma WrapOnce(x: int, y: int)
    ensures Wrap(Wrap(x) + y) == Wrap(x + y)
  {
  }

  lemma WholeTurns(x: int, turns: int)
    ensures Wrap(x - turns * TWO_64) == Wrap(x)
    ensures (x - turns * TWO_64) % TWO_64 == x % TWO_64
    ensures x - turns * TWO_64 == x <==> turns == 0
  {
  }
}
