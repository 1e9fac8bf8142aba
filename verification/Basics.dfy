/**
 Shared vocabulary: optional values, results, machine-integer bounds and the
 saturating arithmetic of Rust's unsigned integers.
 */
module Basics {

  datatype Option<+T> = None | Some(value: T)

  datatype Result<+T, +E> = Ok(value: T) | Err(error: E)

  const U32: nat := 0x1_0000_0000
  const U64: nat := 0x1_0000_0000_0000_0000
  const U64_MAX: nat := U64 - 1

  function Min(a: int, b: int): int {
    if a <= b then a else b
  }

  function Max(a: int, b: int): int {
    if a <= b then b else a
  }

  // `u64::saturating_add`, `u64::saturating_mul` and `u64::saturating_pow`.
  function SatAdd(a: nat, b: nat): nat {
    Min(a + b, U64_MAX)
  }

  function SatMul(a: nat, b: nat): nat {
    Min(a * b, U64_MAX)
  }

  function SatPow(b: nat, e: nat): nat {
    Min(Pow(b, e), U64_MAX)
  }

  function Pow(b: nat, e: nat): nat {
    if e == 0 then 1 else b * Pow(b, e - 1)
  }

  lemma {:induction false} Pow3Mono(i: nat, j: nat)
    requires i <= j
    ensures 1 <= Pow(3, i) <= Pow(3, j)
    decreases j
  {
    if i < j {
      Pow3Mono(i, j - 1);
    } else if i > 0 {
      Pow3Mono(i - 1, j - 1);
    }
  }

  lemma {:induction false} Pow2Mono(i: nat, j: nat)
    requires i <= j
    ensures 1 <= Pow(2, i) <= Pow(2, j)
    decreases j
  {
    if i < j {
      Pow2Mono(i, j - 1);
    } else if i > 0 {
      Pow2Mono(i - 1, j - 1);
    }
  }

  lemma Pow2At20()
    ensures Pow(2, 20) == 0x10_0000
  {
    assert Pow(2, 4) == 2 * (2 * (2 * (2 * Pow(2, 0))));
    assert Pow(2, 8) == 2 * (2 * (2 * (2 * Pow(2, 4))));
    assert Pow(2, 12) == 2 * (2 * (2 * (2 * Pow(2, 8))));
    assert Pow(2, 16) == 2 * (2 * (2 * (2 * Pow(2, 12))));
    assert Pow(2, 20) == 2 * (2 * (2 * (2 * Pow(2, 16))));
  }

  lemma Pow3At10()
    ensures Pow(3, 3) == 27 && Pow(3, 5) == 243 && Pow(3, 6) == 729 && Pow(3, 10) == 59049
  {
    assert Pow(3, 3) == 3 * (3 * (3 * Pow(3, 0)));
    assert Pow(3, 6) == 3 * (3 * (3 * Pow(3, 3)));
    assert Pow(3, 9) == 3 * (3 * (3 * Pow(3, 6)));
  }

  // The two powers at which the repository's back-off counters stop growing.
  lemma Pow3At30()
    ensures Pow(3, 20) == 3486784401
    ensures Pow(3, 30) == 205891132094649
  {
    Pow3At10();
    assert Pow(3, 13) == 3 * (3 * (3 * Pow(3, 10)));
    assert Pow(3, 16) == 3 * (3 * (3 * Pow(3, 13)));
    assert Pow(3, 19) == 3 * (3 * (3 * Pow(3, 16)));
    assert Pow(3, 22) == 3 * (3 * (3 * Pow(3, 19)));
    assert Pow(3, 25) == 3 * (3 * (3 * Pow(3, 22)));
    assert Pow(3, 28) == 3 * (3 * (3 * Pow(3, 25)));
    assert Pow(3, 30) == 3 * (3 * Pow(3, 28));
  }
}
