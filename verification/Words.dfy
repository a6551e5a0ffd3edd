/** Unsigned 64-bit arithmetic as the server's `std::size_t` counters perform it, and the byte type of blob contents. */
module Words {

  const WORD_LIMIT: nat := 0x1_0000_0000_0000_0000

  type word = n: nat | n < WORD_LIMIT

  newtype byte = x: int | 0 <= x < 256

  function Add64(a: nat, b: nat): word {
    (a + b) % WORD_LIMIT
  }

  function Sub64(a: nat, b: nat): word {
    (a - b) % WORD_LIMIT
  }

  lemma SubtractTwice(a: nat, b: nat, c: nat)
    ensures Sub64(Sub64(a, b), c) == Sub64(a, b + c)
  {
  }
}
