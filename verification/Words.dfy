/** Machine words, error codes and the two constants of the token engine. */
module Words {
  const TWO64: int := 0x1_0000_0000_0000_0000
  const TWO32: int := 0x1_0000_0000
  const TWO63: int := 0x8000_0000_0000_0000

  // `unsigned long` on the platforms the code targets.
  type U64 = x: int | 0 <= x < TWO64

  // A cost travels as `unsigned long` and is read as `long`: it is non-negative in both readings.
  type Cost = x: int | 0 <= x < TWO63

  const MIN_RS_NUM: U64 := 10
  const RESPOND_STEP: U64 := 5

  datatype Err = Ok | Pending | FailedNode | Memory {
    // A group that has reached its outcome reports one of these two codes.
    predicate Final() {
      Ok? || FailedNode?
    }
  }

  function Add64(a: U64, b: U64): U64 {
    if a + b < TWO64 then a + b else a + b - TWO64
  }

  function Sub64(a: U64, b: U64): U64 {
    if b <= a then a - b else a - b + TWO64
  }

  function Max(a: int, b: int): int {
    if a > b then a else b
  }

  function Min(a: int, b: int): int {
    if a < b then a else b
  }

  // A counter kept in an `int`: numbers that are equal there differ by a multiple of 2^32.
  function AsInt(x: int): int {
    x % TWO32
  }

  lemma AddWraps(sum: nat, c: Cost)
    ensures Add64(sum % TWO64, c) == (sum + c) % TWO64
    ensures Add64(c, sum % TWO64) == (sum + c) % TWO64
  {
  }

  lemma SubWraps(sum: nat, c: Cost)
    requires c <= sum
    ensures Sub64(sum % TWO64, c) == (sum - c) % TWO64
  {
  }
}
