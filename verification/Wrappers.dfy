/** The small datatypes and helpers shared by the modules of this project. */
module Wrappers {

  datatype Option<+T> = None | Some(value: T)

  datatype Result<+T, +E> = Ok(value: T) | Err(error: E)

  /** The value stored under a key, if any. */
  function Lookup<K, V>(m: map<K, V>, k: K): Option<V> {
    if k in m then Some(m[k]) else None
  }

  function Min(a: int, b: int): int {
    if a <= b then a else b
  }

  function Max(a: int, b: int): int {
    if a <= b then b else a
  }

  /** `n` times `k`, as repeated addition. */
  function Times(n: nat, k: nat): nat {
    if n == 0 then 0 else Times(n - 1, k) + k
  }

  /** How often `b` goes into `a`, as repeated subtraction. */
  function Quotient(a: nat, b: nat): nat
    requires b > 0
  {
    if a < b then 0 else 1 + Quotient(a - b, b)
  }

  lemma {:induction false} TimesIsProduct(n: nat, k: nat)
    ensures Times(n, k) == n * k
  {
    if n > 0 {
      TimesIsProduct(n - 1, k);
      assert (n - 1) * k + k == n * k;
    }
  }

  lemma {:induction false} TimesMonotone(m: nat, n: nat, k: nat)
    requires m <= n
    ensures Times(m, k) <= Times(n, k)
  {
    if m < n {
      TimesMonotone(m, n - 1, k);
    }
  }

  lemma {:induction false} TimesAdds(n: nat, j: nat, k: nat)
    ensures Times(n, j + k) == Times(n, j) + Times(n, k)
  {
    if n > 0 {
      TimesAdds(n - 1, j, k);
    }
  }

  /** The quotient is the most that fits. */
  lemma {:induction false} QuotientFits(a: nat, b: nat)
    requires b > 0
    ensures Times(Quotient(a, b), b) <= a < Times(Quotient(a, b) + 1, b)
  {
    if a >= b {
      QuotientFits(a - b, b);
    }
  }

  lemma UniqueQuotient(q: nat, r: nat, b: nat, s: nat, t: nat)
    requires s < b && t < b && q * b + s == r * b + t
    ensures q == r
  {
    assert (q + 1) * b == q * b + b && (r + 1) * b == r * b + b;
    if q < r {
      MulMonotone(q + 1, r, b);
      assert false;
    } else if r < q {
      MulMonotone(r + 1, q, b);
      assert false;
    }
  }

  lemma QuotientIsDivision(a: nat, b: nat)
    requires b > 0
    ensures Quotient(a, b) == a / b
  {
    var q := Quotient(a, b);
    QuotientFits(a, b);
    TimesIsProduct(q, b);
    UniqueQuotient(q, a / b, b, a - q * b, a % b);
  }

  lemma MulMonotone(a: nat, b: nat, k: nat)
    requires a <= b
    ensures a * k <= b * k
  {
  }
}
