/** Result types and the modular arithmetic shared by the models. */
module Common {

  datatype Option<+T> = None | Some(value: T)

  datatype Result<+T> = Ok(value: T) | Err(error: string)

  const UINT64: nat := 0x1_0000_0000_0000_0000

  /** sync/atomic addition on a uint64. */
  function Add64(x: nat, n: nat): (r: nat)
  {
    (x + n) % UINT64
  }

  /** Adding ^uint64(n - 1): subtraction with wrap-around. */
  function Sub64(x: nat, n: nat): (r: nat)
  {
    (x + (UINT64 - n % UINT64)) % UINT64
  }

  lemma Add64Tracks(x: nat, total: nat, n: nat)
    requires x == total % UINT64
    ensures Add64(x, n) == (total + n) % UINT64
  {
  }

  lemma Sub64Tracks(x: nat, total: nat, n: nat)
    requires x == total % UINT64 && n <= total
    ensures Sub64(x, n) == (total - n) % UINT64
  {
  }
}
